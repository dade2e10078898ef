/** The life of a remote command under its marks. */
module RemoteCommands {
  import opened Wrappers

  datatype Status = Pending | Sent | Success | Failed

  datatype Command = Command(status: Status, executedAt: Option<int>, error: string, updatedAt: int)

  /** MarkSent, MarkSuccess or MarkFailed at a time; there is no mark back to
      pending. */
  datatype Mark = Mark(next: Status, error: string, at: int)

  predicate Terminal(s: Status) {
    s == Success || s == Failed
  }

  /** transitionRemoteCommand and the update of mark. */
  function Transition(c: Command, m: Mark): Result<Command, Fault> {
    if Terminal(c.status) then Err(Invalid)
    else Ok(Command(m.next,
                    if c.executedAt.None? then Some(m.at) else c.executedAt,
                    if m.error != "" then m.error else c.error,
                    m.at))
  }

  /** The command after a series of marks; a refused mark leaves it alone. */
  function After(c: Command, marks: seq<Mark>): Command {
    if marks == [] then c else
    var last := |marks| - 1;
    match Transition(After(c, marks[..last]), marks[last])
    case Err(_) => After(c, marks[..last])
    case Ok(d) => d
  }

  class RemoteCommand {
    var status: Status
    var executedAt: Option<int>
    var error: string
    var updatedAt: int

    ghost function Abs(): Command
      reads this
    {
      Command(status, executedAt, error, updatedAt)
    }

    method ApplyMark(next: Status, errMsg: string, now: int) returns (ok: bool)
      modifies this
      ensures ok <==> Transition(old(Abs()), Mark(next, errMsg, now)).Ok?
      ensures Abs() == After(old(Abs()), [Mark(next, errMsg, now)])
    {
      ghost var marks := [Mark(next, errMsg, now)];
      assert marks[..0] == [];
      if status == Success || status == Failed {
        return false;
      }
      if executedAt.None? {
        executedAt := Some(now);
      }
      if errMsg != "" {
        error := errMsg;
      }
      status := next;
      updatedAt := now;
      return true;
    }
  }

  // ---------------------------------------------------------------- whole lives

  /** The marks up to the first that ends the command. */
  function Effective(marks: seq<Mark>): seq<Mark> {
    if marks == [] then [] else
    var last := |marks| - 1;
    var front := Effective(marks[..last]);
    if Ended(front) then front else front + [marks[last]]
  }

  predicate Ended(marks: seq<Mark>) {
    marks != [] && Terminal(marks[|marks| - 1].next)
  }

  function LastError(marks: seq<Mark>): string {
    if marks == [] then "" else
    var last := |marks| - 1;
    if marks[last].error != "" then marks[last].error else LastError(marks[..last])
  }

  /** The command shows all of the marks: the status and time of the last, the time
      of the first as its execution time, and the last error text given. */
  predicate Shows(c: Command, created: int, marks: seq<Mark>) {
    && c.status == (if marks == [] then Pending else marks[|marks| - 1].next)
    && c.updatedAt == (if marks == [] then created else marks[|marks| - 1].at)
    && c.executedAt == (if marks == [] then None else Some(marks[0].at))
    && c.error == LastError(marks)
  }

  /** From its creation on, a command shows exactly the marks up to the first that
      ended it; marks after the end change nothing. */
  lemma LifeOfCommand(created: int, marks: seq<Mark>)
    ensures var effective := Effective(marks);
            && effective <= marks
            && (effective == marks
                || (effective != [] && effective[|effective| - 1].next in {Success, Failed}))
            && (forall i :: 0 <= i < |effective| - 1 ==> effective[i].next !in {Success, Failed})
            && Shows(After(Command(Pending, None, "", created), marks), created, effective)
  {
    hide Effective, Shows;
    EffectiveIsPrefix(marks);
    ShowsEffective(created, marks);
  }

  lemma {:induction false} EffectiveIsPrefix(marks: seq<Mark>)
    ensures var effective := Effective(marks);
            && effective <= marks
            && (effective == marks || Ended(effective))
            && (forall i :: 0 <= i < |effective| - 1 ==> !Terminal(effective[i].next))
  {
    if marks != [] {
      var k := |marks| - 1;
      EffectiveIsPrefix(marks[..k]);
      assert marks == marks[..k] + [marks[k]];
    }
  }

  lemma {:induction false} ShowsEffective(created: int, marks: seq<Mark>)
    ensures Shows(After(Command(Pending, None, "", created), marks), created, Effective(marks))
  {
    if marks != [] {
      var k := |marks| - 1;
      var (c, front) := (After(Command(Pending, None, "", created), marks[..k]), Effective(marks[..k]));
      ShowsEffective(created, marks[..k]);
      TerminalIsEnded(c, created, front);
      hide Shows, Terminal, Ended;
      if !Ended(front) {
        ShowsNext(c, created, front, marks[k]);
      }
    }
  }

  lemma TerminalIsEnded(c: Command, created: int, marks: seq<Mark>)
    requires Shows(c, created, marks)
    ensures Terminal(c.status) <==> Ended(marks)
  {
  }

  lemma ShowsNext(c: Command, created: int, marks: seq<Mark>, m: Mark)
    requires Shows(c, created, marks) && Transition(c, m).Ok?
    ensures Shows(Transition(c, m).value, created, marks + [m])
  {
    assert (marks + [m])[..|marks|] == marks;
  }
}
