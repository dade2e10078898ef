/** The engine object: the code of each mutex section, proved to compute the
    section of EngineProtocol. */
module EngineObject {
  import opened Wrappers
  import EP = EngineProtocol
  import EC = EngineCommands

  class FFmpegEngine {
    var cmd: Option<EP.Pid>
    var running: bool
    var paused: bool
    var exitCode: int
    var source: string
    var lastSeek: real
    var elapsed: real
    var queue: seq<EP.Item>
    var queueIdx: nat
    var loop: bool
    var aux: EP.Item
    var resumeSource: string
    var resumeSeek: real
    var intentionalStop: bool
    var tail: seq<(EP.Pid, string)>
    ghost var elapsedAuthor: Option<EP.Pid>
    ghost var lastPid: Option<EP.Pid>
    ghost var lineage: EP.Lineage
    ghost var resumeLineage: EP.Lineage
    ghost var started: seq<EP.Item>

    ghost function Abs(): EP.Fields
      reads this
    {
      EP.Fields(cmd, running, paused, exitCode, source, lastSeek, elapsed, queue, queueIdx, loop, aux,
                resumeSource, resumeSeek, intentionalStop, tail, elapsedAuthor, lastPid,
                lineage, resumeLineage, started)
    }

    constructor ()
      ensures Abs() == EP.InitFields()
    {
      cmd, running, paused, exitCode := None, false, false, 0;
      source, lastSeek, elapsed := "", 0.0, 0.0;
      queue, queueIdx, loop, aux := [], 0, false, EP.Plain("");
      resumeSource, resumeSeek, intentionalStop, tail := "", 0.0, false, [];
      elapsedAuthor, lastPid, started := None, None, [];
      lineage, resumeLineage := EP.Lineage("", 0.0, []), EP.Lineage("", 0.0, []);
    }

    /** The section of StartAt and StartQueue. */
    method SetQueue(items: seq<EP.Item>, loop: bool)
      modifies this`queue, this`queueIdx, this`loop
      ensures Abs() == EP.SetQueue(old(Abs()), items, loop)
    {
      queue := items;
      queueIdx := 0;
      this.loop := loop;
    }

    /** The last section of startItem. */
    method Install(pid: EP.Pid, item: EP.Item, seek: real, ghost l: EP.Lineage)
      modifies this
      ensures Abs() == EP.Install(old(Abs()), pid, item, seek, l)
    {
      RecordSource(pid, item, seek, l);
      ForgetPause();
      FreshStatus();
    }

    method RecordSource(pid: EP.Pid, item: EP.Item, seek: real, ghost l: EP.Lineage)
      modifies this`cmd, this`source, this`lastSeek, this`elapsed, this`aux,
               this`elapsedAuthor, this`lastPid, this`lineage, this`started
      ensures cmd == Some(pid) && source == item.path && lastSeek == seek && elapsed == 0.0 && aux == item
      ensures elapsedAuthor == None && lastPid == Some(pid) && lineage == l && started == old(started) + [item]
    {
      cmd := Some(pid);
      source, lastSeek, elapsed := item.path, seek, 0.0;
      aux := item;
      elapsedAuthor, lastPid, lineage, started := None, Some(pid), l, started + [item];
    }

    method ForgetPause()
      modifies this`resumeSource, this`resumeSeek, this`intentionalStop
      ensures resumeSource == "" && resumeSeek == 0.0 && !intentionalStop
    {
      resumeSource := "";
      resumeSeek := 0.0;
      intentionalStop := false;
    }

    method FreshStatus()
      modifies this`running, this`paused, this`exitCode, this`tail
      ensures running && !paused && exitCode == 0 && tail == []
    {
      running, paused, exitCode := true, false, 0;
      tail := [];
    }

    /** stopLocked reads the process to stop, if one runs. */
    method ReadProcess() returns (target: Option<EP.Pid>)
      ensures target == if running then cmd else None
    {
      if !running || cmd.None? {
        return None;
      }
      return cmd;
    }

    method MarkIntentional()
      modifies this`intentionalStop
      ensures Abs() == EP.MarkIntentional(old(Abs()))
    {
      intentionalStop := true;
    }

    /** Pause reads where to resume before it stops the process. */
    method CapturePosition() returns (position: Option<(string, real)>)
      ensures position == if running then Some((source, lastSeek + elapsed)) else None
    {
      if !running {
        return None;
      }
      return Some((source, lastSeek + elapsed));
    }

    method CompletePause(src: string, seek: real, ghost l: EP.Lineage)
      modifies this`resumeSource, this`resumeSeek, this`paused, this`resumeLineage
      ensures Abs() == EP.CompletePause(old(Abs()), src, seek, l)
    {
      resumeSource := src;
      resumeSeek := seek;
      paused := true;
      resumeLineage := l;
    }

    /** The first section of watchExit. */
    method FinalizeExit(pid: EP.Pid, code: int) returns (replaced: bool, intentional: bool)
      modifies this`running, this`exitCode, this`cmd
      ensures Abs() == EP.Finalize(old(Abs()), pid, code)
      ensures replaced == (old(cmd) != Some(pid)) && intentional == intentionalStop
    {
      intentional := intentionalStop;
      if cmd != Some(pid) {
        return true, intentional;
      }
      running := false;
      exitCode := code;
      cmd := None;
      return false, intentional;
    }

    /** The decision of watchExit after a clean end. */
    method DecideAdvance() returns (decision: EP.Advance)
      ensures decision == EP.NextItem(Abs())
    {
      var q, idx, looping := queue, queueIdx, loop;
      if |q| > 1 {
        var next := idx + 1;
        if next >= |q| {
          if looping {
            next := 0;
          } else {
            next := -1;
          }
        }
        if next >= 0 {
          return EP.PlayNext(next, q[next]);
        }
        return EP.Finished;
      }
      return EP.Stay;
    }

    method SetIndex(next: nat)
      modifies this`queueIdx
      ensures Abs() == EP.SetIndex(old(Abs()), next)
    {
      queueIdx := next;
    }

    method ClearQueue()
      modifies this`queue
      ensures Abs() == EP.ClearQueue(old(Abs()))
    {
      queue := [];
    }

    method DecideReconnect(cfg: EP.Config) returns (reconnect: bool, src: string, seek: real)
      ensures reconnect == EP.Reconnects(Abs(), cfg) && src == source && seek == lastSeek
    {
      src, seek := source, lastSeek;
      reconnect := cfg.reconnectInterval > 0 && src != "" && !intentionalStop;
    }

    // ------------------------------------------------------- the sections composed

    /** stopLocked left alone: the signalled process ends with the code, and its
        watcher records that while the stop waits. */
    method Stop(code: int)
      modifies this`intentionalStop, this`running, this`exitCode, this`cmd
      ensures Abs() == EC.StoppedFields(old(Abs()), code)
    {
      var target := ReadProcess();
      if target.None? {
        return;
      }
      MarkIntentional();
      var _, _ := FinalizeExit(target.value, code);
    }

    method Pause(code: int)
      modifies this
      ensures Abs() == EC.PausedFields(old(Abs()), code)
    {
      var position := CapturePosition();
      if position.None? {
        return;
      }
      ghost var l := EC.Resumable(Abs());
      Stop(code);
      CompletePause(position.value.0, position.value.1, l);
    }

    /** watchExit left alone; the timer it sets is an advance or a reconnect. */
    method WatchExit(pid: EP.Pid, code: int, cfg: EP.Config)
      returns (advance: Option<EP.Item>, reconnect: Option<(string, real)>)
      modifies this
      ensures Abs() == EC.WatchedFields(old(Abs()), pid, code, cfg).0
      ensures EC.WatchedFields(old(Abs()), pid, code, cfg).1 ==
        if advance.Some? then Some(EP.AdvanceTimer(advance.value))
        else if reconnect.Some? then Some(EP.ReconnectTimer(reconnect.value.0, reconnect.value.1, lineage))
        else None
    {
      advance, reconnect := None, None;
      var replaced, intentional := FinalizeExit(pid, code);
      if replaced {
        return;
      }
      if code == 0 && !intentional {
        var decision := DecideAdvance();
        match decision {
          case Stay =>
          case PlayNext(next, item) =>
            SetIndex(next);
            advance := Some(item);
          case Finished => ClearQueue();
        }
      }
      if code != 0 {
        var again, src, seek := DecideReconnect(cfg);
        if again {
          reconnect := Some((src, seek));
        }
      }
    }

    /** The section the output readers run for each line. */
    method FoldLine(pid: EP.Pid, line: EP.Line)
      modifies this`elapsed, this`elapsedAuthor, this`tail
      ensures Abs() == EP.ApplyLine(old(Abs()), pid, line)
    {
      match line
      case OutTime(seconds) =>
        elapsed := seconds;
        elapsedAuthor := Some(pid);
      case OtherProgress =>
      case Stderr(text) =>
        tail := tail + [(pid, text)];
        if |tail| > EP.MAX_TAIL {
          tail := tail[|tail| - EP.MAX_TAIL..];
        }
    }
  }
}
