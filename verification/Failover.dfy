/** The output failover monitor: one evaluation per tick and failover, the tick
    loop over the runtime map, and what every trace of ticks guarantees. */
module Failover {
  import opened Wrappers
  import opened Strings

  type Time = int  // nanoseconds

  const SECOND: int := 1_000_000_000

  datatype Spec = Spec(name: string, primary: string, backup: string, policy: string, threshold: int)

  datatype Runtime = Runtime(active: string, switchedAt: Option<Time>, downSince: Option<Time>)

  datatype OutputState = OutputState(unique: string, connected: bool)

  /** What the switch action answered, if one was issued. */
  datatype Outcome = NoSwitcher | Failed | Switched

  datatype SpecError = EmptyName | EmptyPrimary | EmptyBackup | SameOutputs | UnknownPolicy | BadThreshold

  /** A name, two outputs that differ when trimmed, a known policy or none, and a
      positive threshold. */
  predicate Acceptable(spec: Spec) {
    && !Blank(spec.name) && !Blank(spec.primary) && !Blank(spec.backup)
    && Trim(spec.primary) != Trim(spec.backup)
    && spec.policy in {"", "automatic", "manual"} && spec.threshold > 0
  }

  /** Accepts exactly the acceptable specifications, in their normal form. */
  function Validate(spec: Spec): (r: Result<Spec, SpecError>)
    ensures r.Ok? <==> Acceptable(spec)
    ensures r.Ok? ==> r.value.threshold == spec.threshold
    ensures r.Ok? ==> r.value.policy == if spec.policy == "manual" then "manual" else "automatic"
    ensures r.Ok? ==>
      r.value.name == Trim(spec.name) && r.value.primary == Trim(spec.primary) && r.value.backup == Trim(spec.backup)
  {
    var s := spec.(name := Trim(spec.name), primary := Trim(spec.primary), backup := Trim(spec.backup));
    if s.name == "" then Err(EmptyName)
    else if s.primary == "" then Err(EmptyPrimary)
    else if s.backup == "" then Err(EmptyBackup)
    else if s.primary == s.backup then Err(SameOutputs)
    else
      var policy := if s.policy == "" then "automatic" else s.policy;
      if policy != "automatic" && policy != "manual" then Err(UnknownPolicy)
      else if s.threshold <= 0 then Err(BadThreshold)
      else Ok(s.(policy := policy))
  }

  /** Validating a normal form again changes nothing. */
  lemma ValidatedIsNormal(spec: Spec)
    requires Validate(spec).Ok?
    ensures Validate(Validate(spec).value) == Validate(spec)
  {
    TrimTwice(spec.name);
    TrimTwice(spec.primary);
    TrimTwice(spec.backup);
    hide Trim;
  }

  /** Which complaint comes first. */
  lemma RefusedFor(spec: Spec)
    requires Validate(spec).Err?
    ensures match Validate(spec).error
            case EmptyName => Blank(spec.name)
            case EmptyPrimary => !Blank(spec.name) && Blank(spec.primary)
            case EmptyBackup => !Blank(spec.name) && !Blank(spec.primary) && Blank(spec.backup)
            case SameOutputs => !Blank(spec.primary) && Trim(spec.primary) == Trim(spec.backup)
            case UnknownPolicy =>
              Acceptable(spec.(policy := "", threshold := 1)) && spec.policy !in {"", "automatic", "manual"}
            case BadThreshold => Acceptable(spec.(threshold := 1)) && spec.threshold <= 0
  {
    hide Trim;
  }

  function Assumed(f: Spec): Runtime {
    Runtime(f.primary, None, None)
  }

  /** The disconnect timer after this observation. */
  function Timed(f: Spec, rt: Runtime, up: bool, now: Time): Runtime {
    if up then rt.(downSince := None)
    else if rt.active == f.primary && rt.downSince.None? then rt.(downSince := Some(now))
    else rt
  }

  /** The output a switch is due to, if any. */
  function Target(f: Spec, rt: Runtime, up: bool, now: Time): Option<string> {
    if up then (if rt.active == f.backup && f.policy != "manual" then Some(f.primary) else None)
    else if rt.active == f.primary then
      var since := Timed(f, rt, up, now).downSince;
      if since.Some? && now - since.value >= f.threshold * SECOND then Some(f.backup) else None
    else None
  }

  function Evaluate(f: Spec, rt: Runtime, up: bool, now: Time, outcome: Outcome): Runtime {
    var target := Target(f, rt, up, now);
    if target.Some? && outcome.Switched? then Runtime(target.value, Some(now), None) else Timed(f, rt, up, now)
  }

  // ---------------------------------------------------------------- the monitor

  function Connected(states: seq<OutputState>): map<string, bool> {
    if states == [] then map[] else
    var k := |states| - 1;
    Connected(states[..k])[states[k].unique := states[k].connected]
  }

  /** An output missing from the report is disconnected. */
  predicate IsUp(connected: map<string, bool>, unique: string) {
    unique in connected && connected[unique]
  }

  /** An output is up exactly if the last state reported under its name is a connected
      one. */
  lemma {:induction false} UpMeans(states: seq<OutputState>, unique: string)
    ensures IsUp(Connected(states), unique) <==>
      exists i :: 0 <= i < |states| && states[i].unique == unique && states[i].connected
                  && forall j :: i < j < |states| ==> states[j].unique != unique
  {
    if states != [] {
      var k := |states| - 1;
      UpMeans(states[..k], unique);
      if states[k].unique != unique && IsUp(Connected(states[..k]), unique) {
        var front := states[..k];
        var i :| && 0 <= i < k && front[i].unique == unique && front[i].connected
                 && forall j :: i < j < k ==> front[j].unique != unique;
        assert states[i] == front[i];
        forall j | i < j < |states|
          ensures states[j].unique != unique
        {
          assert j < k ==> states[j] == front[j];
        }
      }
    }
  }

  function Lookup<T>(m: map<string, T>, id: string): Option<T> {
    if id in m then Some(m[id]) else None
  }

  /** One tick for one failover, enabled with spec f or not at all; without a
      report of the outputs nothing happens. */
  function TickOne(rt: Option<Runtime>, f: Option<Spec>, read: Option<map<string, bool>>, now: Time,
                   outcome: Outcome): Option<Runtime> {
    if read.None? then rt
    else if f.None? then None
    else
      var seen := if rt.Some? then rt.value else Assumed(f.value);
      Some(Evaluate(f.value, seen, IsUp(read.value, f.value.primary), now, outcome))
  }

  class Monitor {
    var running: bool
    var runtime: map<string, Runtime>

    constructor ()
      ensures !running && runtime == map[]
    {
      running, runtime := false, map[];
    }

    method Start() returns (alreadyRunning: bool)
      modifies this
      ensures running && alreadyRunning == old(running)
      ensures runtime == if old(running) then old(runtime) else map[]
    {
      if running {
        return true;
      }
      running := true;
      runtime := map[];
      return false;
    }

    method Stop()
      modifies this`running
      ensures !running
    {
      running := false;
    }

    method SwitchLocked(target: string, rt: Runtime, now: Time, outcome: Outcome) returns (next: Runtime)
      ensures next == if outcome.Switched? then Runtime(target, Some(now), None) else rt
    {
      next := rt;
      if outcome.NoSwitcher? {
        return;
      }
      if outcome.Failed? {
        return;
      }
      next := next.(active := target);
      next := next.(switchedAt := Some(now));
      next := next.(downSince := None);
    }

    method EvaluateLocked(f: Spec, rt: Runtime, connected: map<string, bool>, now: Time, outcome: Outcome)
      returns (next: Runtime)
      ensures next == Evaluate(f, rt, IsUp(connected, f.primary), now, outcome)
    {
      next := rt;
      if IsUp(connected, f.primary) {
        next := next.(downSince := None);
        if next.active == f.backup && f.policy != "manual" {
          next := SwitchLocked(f.primary, next, now, outcome);
        }
        return;
      }
      if next.active == f.primary {
        if next.downSince.None? {
          next := next.(downSince := Some(now));
        }
        if now - next.downSince.value >= f.threshold * SECOND {
          next := SwitchLocked(f.backup, next, now, outcome);
        }
        return;
      }
    }

    /** One tick: every failover moves by itself, whatever order the map of
        enabled failovers yields, and those no longer enabled are forgotten. */
    method Tick(report: Option<seq<OutputState>>, failovers: map<string, Spec>, now: Time,
                outcomes: map<string, Outcome>)
      requires failovers.Keys <= outcomes.Keys
      modifies this`runtime
      ensures var read := if report.Some? then Some(Connected(report.value)) else None;
              forall id :: Lookup(runtime, id)
                 == TickOne(old(Lookup(runtime, id)), Lookup(failovers, id), read, now,
                            if id in outcomes then outcomes[id] else NoSwitcher)
    {
      if report.None? {
        return;
      }
      var connected := map[];
      for i := 0 to |report.value|
        invariant connected == Connected(report.value[..i])
      {
        assert report.value[..i + 1][..i] == report.value[..i];
        connected := connected[report.value[i].unique := report.value[i].connected];
      }
      assert report.value[..|report.value|] == report.value;
      EvaluateAll(connected, failovers, now, outcomes);
      PruneRuntime(failovers);
    }

    method EvaluateAll(connected: map<string, bool>, failovers: map<string, Spec>, now: Time,
                       outcomes: map<string, Outcome>)
      requires failovers.Keys <= outcomes.Keys
      modifies this`runtime
      ensures forall id :: id in failovers ==>
                Lookup(runtime, id)
                == TickOne(old(Lookup(runtime, id)), Some(failovers[id]), Some(connected), now, outcomes[id])
      ensures forall id :: id !in failovers ==> Lookup(runtime, id) == old(Lookup(runtime, id))
    {
      var todo := failovers.Keys;
      while todo != {}
        invariant todo <= failovers.Keys
        invariant forall id :: id in failovers && id !in todo ==>
                    Lookup(runtime, id)
                    == TickOne(old(Lookup(runtime, id)), Some(failovers[id]), Some(connected), now, outcomes[id])
        invariant forall id :: id !in failovers || id in todo ==> Lookup(runtime, id) == old(Lookup(runtime, id))
        decreases |todo|
      {
        var id :| id in todo;
        var f := failovers[id];
        if id !in runtime {
          runtime := runtime[id := Assumed(f)];
        }
        var rt := EvaluateLocked(f, runtime[id], connected, now, outcomes[id]);
        runtime := runtime[id := rt];
        todo := todo - {id};
      }
    }

    method PruneRuntime(failovers: map<string, Spec>)
      modifies this`runtime
      ensures forall id :: Lookup(runtime, id) == if id in failovers then old(Lookup(runtime, id)) else None
    {
      var todo := runtime.Keys;
      while todo != {}
        invariant todo <= old(runtime).Keys
        invariant forall id :: Lookup(runtime, id)
                               == if id in failovers || id in todo then old(Lookup(runtime, id)) else None
        decreases |todo|
      {
        var id :| id in todo;
        if id !in failovers {
          runtime := runtime - {id};
        }
        todo := todo - {id};
      }
    }
  }

  // ---------------------------------------------------------------- traces

  /** One tick as one failover sees it: the report (none on a reader error),
      its spec if it is enabled, and the answer to a switch. */
  datatype Input = Input(now: Time, read: Option<map<string, bool>>, f: Option<Spec>, outcome: Outcome)

  function After(trace: seq<Input>): Option<Runtime> {
    if trace == [] then None else
    var k := |trace| - 1;
    TickOne(After(trace[..k]), trace[k].f, trace[k].read, trace[k].now, trace[k].outcome)
  }

  /** The output names stay what they are while a run lasts. */
  predicate Named(trace: seq<Input>, primary: string, backup: string) {
    primary != backup
    && forall i :: 0 <= i < |trace| && trace[i].f.Some? ==>
         trace[i].f.value.primary == primary && trace[i].f.value.backup == backup
  }

  predicate Evaluated(i: Input) {
    i.read.Some? && i.f.Some?
  }

  predicate Up(i: Input)
    requires Evaluated(i)
  {
    IsUp(i.read.value, i.f.value.primary)
  }

  /** The runtime the last tick of the trace evaluates. */
  function Seen(trace: seq<Input>): Runtime
    requires trace != [] && Evaluated(trace[|trace| - 1])
  {
    var k := |trace| - 1;
    var rt := After(trace[..k]);
    if rt.Some? then rt.value else Assumed(trace[k].f.value)
  }

  /** The switch the last tick of the trace issues. */
  function Issued(trace: seq<Input>): Option<string>
    requires trace != []
  {
    var last := trace[|trace| - 1];
    if Evaluated(last) then Target(last.f.value, Seen(trace), Up(last), last.now) else None
  }

  /** Since when every report has shown the primary down, by the reports
      alone: a reader error does not count, a tick without the failover or
      with the primary up starts over. */
  function DownStreak(trace: seq<Input>): Option<Time> {
    if trace == [] then None else
    var k := |trace| - 1;
    var (before, last) := (DownStreak(trace[..k]), trace[k]);
    if last.read.None? then before
    else if last.f.None? || Up(last) then None
    else if before.Some? then before
    else Some(last.now)
  }

  lemma {:induction false} TimerIsStreak(trace: seq<Input>, primary: string, backup: string)
    requires Named(trace, primary, backup)
    ensures match After(trace)
            case None => DownStreak(trace).None?
            case Some(rt) =>
              (rt.active == primary && rt.downSince == DownStreak(trace)) || (rt.active == backup && rt.downSince.None?)
  {
    if trace != [] {
      TimerIsStreak(trace[..|trace| - 1], primary, backup);
    }
  }

  /** The backup is switched to exactly when the primary is the active output
      and every report since a tick at least the threshold ago showed it
      down. */
  lemma BackupIssuedExactly(trace: seq<Input>, primary: string, backup: string)
    requires Named(trace, primary, backup) && trace != [] && Evaluated(trace[|trace| - 1])
    ensures var last := trace[|trace| - 1];
            Issued(trace) == Some(backup) <==>
              && !Up(last) && Seen(trace).active == primary
              && DownStreak(trace).Some? && last.now - DownStreak(trace).value >= last.f.value.threshold * 1_000_000_000
  {
    TimerIsStreak(trace[..|trace| - 1], primary, backup);
  }

  /** The primary is switched back to exactly when it is up, the backup is active and
      the policy is not manual. */
  lemma PrimaryIssuedExactly(trace: seq<Input>, primary: string, backup: string)
    requires Named(trace, primary, backup) && trace != [] && Evaluated(trace[|trace| - 1])
    ensures var last := trace[|trace| - 1];
            Issued(trace) == Some(primary) <==>
              Up(last) && Seen(trace).active == backup && last.f.value.policy != "manual"
  {
  }

  predicate Down(i: Input) {
    i.read.Some? ==> i.f.Some? && !Up(i)
  }

  /** What a down streak means in the trace. */
  lemma {:induction false} StreakMeans(trace: seq<Input>)
    requires DownStreak(trace).Some?
    ensures exists j :: && 0 <= j < |trace| && trace[j].now == DownStreak(trace).value && Evaluated(trace[j])
                        && forall m :: j <= m < |trace| ==> Down(trace[m])
  {
    var k := |trace| - 1;
    var front := trace[..k];
    if DownStreak(front).Some? && (trace[k].read.None? || !Up(trace[k])) {
      StreakMeans(front);
      var j :| && 0 <= j < |front| && front[j].now == DownStreak(front).value && Evaluated(front[j])
               && forall m :: j <= m < |front| ==> Down(front[m]);
      assert trace[j].now == DownStreak(trace).value;
      forall m | j <= m < |trace|
        ensures Down(trace[m])
      {
        assert m < k ==> trace[m] == front[m];
      }
    } else {
      assert Down(trace[k]);
    }
  }

  /** Every switch to the backup at a tick is preceded by a tick, at least the
      threshold earlier, from which on every successful report showed the
      primary down. */
  lemma BackupOnlyAfterThreshold(trace: seq<Input>, primary: string, backup: string)
    requires Named(trace, primary, backup) && trace != [] && Issued(trace) == Some(backup)
    ensures var last := trace[|trace| - 1];
            exists j :: && 0 <= j < |trace| && Evaluated(trace[j])
                        && last.now - trace[j].now >= last.f.value.threshold * 1_000_000_000
                        && forall m :: j <= m < |trace| ==> Down(trace[m])
  {
    BackupIssuedExactly(trace, primary, backup);
    StreakMeans(trace);
  }

  /** The successful switches since the failover was last seen disabled. */
  function Switches(trace: seq<Input>): seq<string> {
    if trace == [] then [] else
    var k := |trace| - 1;
    var (before, last) := (Switches(trace[..k]), trace[k]);
    if last.read.None? then before
    else if last.f.None? then []
    else if Issued(trace).Some? && last.outcome.Switched? then before + [Issued(trace).value]
    else before
  }

  /** Successful switches alternate, the backup first, and tell the active
      output. */
  lemma {:induction false} SwitchesAlternate(trace: seq<Input>, primary: string, backup: string)
    requires Named(trace, primary, backup)
    ensures forall i :: 0 <= i < |Switches(trace)| ==> Switches(trace)[i] == if i % 2 == 0 then backup else primary
    ensures match After(trace)
            case None => Switches(trace) == []
            case Some(rt) => rt.active == if |Switches(trace)| % 2 == 0 then primary else backup
  {
    if trace != [] {
      SwitchesAlternate(trace[..|trace| - 1], primary, backup);
      TimerIsStreak(trace[..|trace| - 1], primary, backup);
    }
  }

  /** The time of the last successful switch since the failover was last seen
      disabled. */
  function SwitchTime(trace: seq<Input>): Option<Time> {
    if trace == [] then None else
    var k := |trace| - 1;
    var (before, last) := (SwitchTime(trace[..k]), trace[k]);
    if last.read.None? then before
    else if last.f.None? then None
    else if Issued(trace).Some? && last.outcome.Switched? then Some(last.now)
    else before
  }

  lemma {:induction false} SwitchedAtIsLast(trace: seq<Input>)
    ensures After(trace).Some? ==> After(trace).value.switchedAt == SwitchTime(trace)
    ensures After(trace).None? ==> SwitchTime(trace).None?
  {
    if trace != [] {
      SwitchedAtIsLast(trace[..|trace| - 1]);
    }
  }

  /** Under the manual policy there is at most one switch per enabled run. */
  lemma {:induction false} ManualSwitchesOnce(trace: seq<Input>, primary: string, backup: string)
    requires Named(trace, primary, backup)
    requires forall i :: 0 <= i < |trace| && trace[i].f.Some? ==> trace[i].f.value.policy == "manual"
    ensures |Switches(trace)| <= 1
  {
    if trace != [] {
      var k := |trace| - 1;
      ManualSwitchesOnce(trace[..k], primary, backup);
      SwitchesAlternate(trace[..k], primary, backup);
    }
  }
}
