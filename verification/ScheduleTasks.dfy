/** Scheduled tasks: validation of a specification, creation and replacement. */
module ScheduleTasks {
  import opened Wrappers
  import opened Strings
  import opened Sequences
  import opened Documents
  import Cron
  import C = CronParser

  // ---------------------------------------------------------------- validation

  predicate KnownAction(action: string) {
    action in {"", "play", "stop"}
  }

  /** A play action needs exactly one target, a stop action none. */
  predicate OneTarget(spec: TaskSpec) {
    if spec.action == "stop" then spec.playlist == "" && spec.media == ""
    else (spec.playlist == "") != (spec.media == "")
  }

  /** ParseCron accepts the text. */
  predicate Parses(cron: CronText) {
    C.CronOf(cron).Ok?
  }

  /** Everything validateTaskSpec asks that does not concern the action. */
  predicate FieldsValid(spec: TaskSpec) {
    && !Blank(spec.name)
    && (|| (spec.kind == "interval" && spec.interval > 0)
        || (spec.kind == "cron" && Parses(spec.cron)))
    && spec.priority in {"", "normal", "important", "critical"}
    && spec.interruptDuration >= 0
  }

  predicate SpecValid(spec: TaskSpec) {
    FieldsValid(spec) && KnownAction(spec.action) && OneTarget(spec)
  }

  /** validateTaskSpec: the first complaint in its order. */
  function CheckSpec(spec: TaskSpec): Option<Fault> {
    if Blank(spec.name) then Some(Invalid)
    else if spec.kind == "interval" then
      if spec.interval <= 0 then Some(Invalid) else CheckPlay(spec)
    else if spec.kind == "cron" then
      match C.CronOf(spec.cron)
      case Err(e) => Some(if e.FieldCount? then Invalid else CronSyntax)
      case Ok(_) => CheckPlay(spec)
    else Some(Invalid)
  }

  function CheckPlay(spec: TaskSpec): Option<Fault> {
    if spec.priority !in {"", "normal", "important", "critical"} then Some(Invalid)
    else if spec.interruptDuration < 0 then Some(Invalid)
    else if spec.action !in {"", "play", "stop"} then Some(Invalid)
    else if spec.action == "stop" then
      if spec.playlist != "" || spec.media != "" then Some(Invalid) else None
    else if spec.playlist != "" && spec.media != "" then Some(Invalid)
    else if spec.playlist == "" && spec.media == "" then Some(Invalid)
    else None
  }

  /** A specification passes exactly if it is valid.  It is refused without the
      promised kind of error exactly if it has a name and is a cron task whose text
      has five fields that do not parse. */
  lemma RefusedAs(spec: TaskSpec)
    ensures CheckSpec(spec).None? <==> SpecValid(spec)
    ensures CheckSpec(spec) == Some(CronSyntax) <==>
      !Blank(spec.name) && spec.kind == "cron" && |spec.cron| == 5 && !Parses(spec.cron)
    ensures CheckSpec(spec) in {None, Some(Invalid), Some(CronSyntax)}
  {
    FiveFields(spec.cron);
  }

  lemma FiveFields(fields: seq<seq<C.Part>>)
    ensures C.CronOf(fields) == Err(C.FieldCount) <==> |fields| != 5
  {
    if |fields| == 5 {
      NoCountError(fields[0], 0, 59, map[]);
      NoCountError(fields[1], 0, 23, map[]);
      NoCountError(fields[2], 1, 31, map[]);
      NoCountError(fields[3], 1, 12, C.MONTHS);
      NoCountError(fields[4], 0, 7, C.WEEKDAYS);
    }
  }

  lemma {:induction false} NoCountError(parts: seq<C.Part>, min: int, max: int, names: map<string, int>)
    requires C.FieldRange(min, max, names)
    ensures C.PartsValues(parts, min, max, names) != Err(C.FieldCount)
    ensures C.FieldOf(parts, min, max, names) != Err(C.FieldCount)
    decreases |parts|
  {
    if parts != [] {
      NoCountError(parts[..|parts| - 1], min, max, names);
    }
  }

  function Normalized(spec: TaskSpec): TaskSpec {
    if spec.priority == "" then spec.(priority := "normal") else spec
  }

  /** validateTaskRefs. */
  predicate RefsResolve(d: Data, spec: TaskSpec) {
    && (spec.playlist != "" ==> HasPlaylist(d.playlists, spec.playlist))
    && (spec.media != "" ==> HasMedia(d.media, spec.media))
    && (spec.scene != "" ==> spec.scene in d.scenes)
  }

  // ---------------------------------------------------------------- operations

  function CreateTask(d: Data, spec: TaskSpec, drawn: string, now: int): Outcome {
    var bad := CheckSpec(spec);
    if bad.Some? then Fail(bad.value)
    else if !RefsResolve(d, spec) then Fail(NotFound)
    else Commit(d.(tasks := d.tasks + [Task(drawn, Normalized(spec), now, now)]))
  }

  /** Replace copies every field of the specification but the action. */
  function Replaced(t: Task, spec: TaskSpec, now: int): Task {
    t.(config := Normalized(spec).(action := t.config.action), updatedAt := now)
  }

  function ReplaceTask(d: Data, id: string, spec: TaskSpec, now: int): Outcome {
    var bad := CheckSpec(spec);
    if bad.Some? then Fail(bad.value) else
    match First(d.tasks, (t: Task) => t.id == id)
    case None => Fail(NotFound)
    case Some(i) =>
      if !RefsResolve(d, spec) then Fail(NotFound)
      else Commit(d.(tasks := d.tasks[i := Replaced(d.tasks[i], spec, now)]))
  }

  function SetEnabled(d: Data, id: string, enabled: bool, now: int): Outcome {
    match First(d.tasks, (t: Task) => t.id == id)
    case None => Fail(NotFound)
    case Some(i) =>
      var t := d.tasks[i];
      Commit(d.(tasks := d.tasks[i := t.(config := t.config.(enabled := enabled), updatedAt := now)]))
  }

  function DeleteTask(d: Data, id: string): Outcome {
    match First(d.tasks, (t: Task) => t.id == id)
    case None => Fail(NotFound)
    case Some(i) => Commit(d.(tasks := Without(d.tasks, i)))
  }

  // ---------------------------------------------------------------- what the operations do

  /** A task is created exactly from a valid specification whose references resolve; it
      stands at the end with that configuration, an empty priority turned into
      "normal". */
  lemma CreateMeans(d: Data, spec: TaskSpec, drawn: string, now: int)
    ensures var o := CreateTask(d, spec, drawn, now);
            && (o.Commit? <==> SpecValid(spec) && Resolves(d, spec))
            && (o.Commit? ==>
                  && |o.doc.tasks| == |d.tasks| + 1 && o.doc == d.(tasks := o.doc.tasks)
                  && o.doc.tasks[..|d.tasks|] == d.tasks
                  && var t := o.doc.tasks[|d.tasks|];
                     && t.id == drawn && t.createdAt == now && t.updatedAt == now
                     && t.config == spec.(priority := if spec.priority == "" then "normal" else spec.priority))
  {
    RefusedAs(spec);
    hide CheckSpec, SpecValid, HasMedia, HasPlaylist;
  }

  /** Every reference that is given leads somewhere. */
  predicate Resolves(d: Data, spec: TaskSpec) {
    && (spec.playlist == "" || HasPlaylist(d.playlists, spec.playlist))
    && (spec.media == "" || HasMedia(d.media, spec.media))
    && (spec.scene == "" || spec.scene in d.scenes)
  }

  /** Replace puts the specification in place of the configuration but for the action,
      and keeps id and creation time; no other task changes. */
  lemma ReplaceMeans(d: Data, id: string, spec: TaskSpec, now: int, i: nat)
    requires First(d.tasks, (t: Task) => t.id == id) == Some(i)
    ensures var o := ReplaceTask(d, id, spec, now);
            var was := d.tasks[i];
            && (o.Commit? <==> SpecValid(spec) && Resolves(d, spec))
            && (o.Commit? ==>
                  && |o.doc.tasks| == |d.tasks|
                  && var t := o.doc.tasks[i];
                     && o.doc == d.(tasks := d.tasks[i := t])
                     && t.id == was.id && t.createdAt == was.createdAt && t.updatedAt == now
                     && t.config == spec.(priority := if spec.priority == "" then "normal" else spec.priority,
                                          action := was.config.action))
  {
    RefusedAs(spec);
    hide CheckSpec, SpecValid, HasMedia, HasPlaylist;
  }

  /** SetEnabled sets the flag and the update time of one task; DeleteTask takes one
      out; both need an existing id. */
  lemma EnableAndDeleteMean(d: Data, id: string, enabled: bool, now: int)
    ensures var o := SetEnabled(d, id, enabled, now);
            if exists t :: t in d.tasks && t.id == id
            then o.Commit? && |o.doc.tasks| == |d.tasks| && exists i: nat ::
                   && i < |d.tasks| && d.tasks[i].id == id && o.doc == d.(tasks := d.tasks[i := o.doc.tasks[i]])
                   && o.doc.tasks[i] == d.tasks[i].(config := d.tasks[i].config.(enabled := enabled), updatedAt := now)
            else o == Fail(NotFound)
    ensures var o := DeleteTask(d, id);
            if exists t :: t in d.tasks && t.id == id
            then o.Commit? && exists i: nat ::
                   i < |d.tasks| && d.tasks[i].id == id && o.doc == d.(tasks := d.tasks[..i] + d.tasks[i + 1..])
            else o == Fail(NotFound)
  {
    var r := First(d.tasks, (t: Task) => t.id == id);
    if r.Some? {
      assert d.tasks[r.value] in d.tasks;
    }
  }

  // ---------------------------------------------------------------- what a stored task keeps

  /** What holds of every stored task: valid fields, a known action, never two
      targets. */
  predicate Sound(t: Task) {
    && FieldsValid(t.config) && t.config.priority != "" && KnownAction(t.config.action)
    && (t.config.playlist == "" || t.config.media == "")
  }

  ghost predicate AllSound(tasks: seq<Task>) {
    forall i :: 0 <= i < |tasks| ==> Sound(tasks[i])
  }

  lemma CreateKeeps(d: Data, spec: TaskSpec, drawn: string, now: int)
    requires Refs(d) && AllSound(d.tasks) && CreateTask(d, spec, drawn, now).Commit?
    ensures var after := CreateTask(d, spec, drawn, now).doc; Refs(after) && AllSound(after.tasks)
  {
    RefusedAs(spec);
    hide CheckSpec, Parses, HasMedia, HasPlaylist;
  }

  lemma ReplaceKeeps(d: Data, id: string, spec: TaskSpec, now: int)
    requires Refs(d) && AllSound(d.tasks) && ReplaceTask(d, id, spec, now).Commit?
    ensures var after := ReplaceTask(d, id, spec, now).doc; Refs(after) && AllSound(after.tasks)
  {
    RefusedAs(spec);
    var i := First(d.tasks, (t: Task) => t.id == id).value;
    ReplacedIsSound(d, d.tasks[i], spec, now);
    hide CheckSpec, SpecValid, RefsResolve, Sound, TaskRefs, Replaced;
  }

  lemma ReplacedIsSound(d: Data, t: Task, spec: TaskSpec, now: int)
    requires Sound(t) && SpecValid(spec) && RefsResolve(d, spec)
    ensures Sound(Replaced(t, spec, now)) && TaskRefs(d.media, d.playlists, Replaced(t, spec, now))
  {
    hide Parses, HasMedia, HasPlaylist;
  }

  lemma EnableKeeps(d: Data, id: string, enabled: bool, now: int)
    requires Refs(d) && AllSound(d.tasks) && SetEnabled(d, id, enabled, now).Commit?
    ensures var after := SetEnabled(d, id, enabled, now).doc; Refs(after) && AllSound(after.tasks)
  {
    var i := First(d.tasks, (t: Task) => t.id == id).value;
    assert TaskRefs(d.media, d.playlists, d.tasks[i]) && Sound(d.tasks[i]);
  }

  lemma DeleteKeeps(d: Data, id: string)
    requires Refs(d) && AllSound(d.tasks) && DeleteTask(d, id).Commit?
    ensures var after := DeleteTask(d, id).doc; Refs(after) && AllSound(after.tasks)
  {
    WithoutMembers(d.tasks, First(d.tasks, (t: Task) => t.id == id).value);
  }

  /** The target rule holds of what Replace stores exactly when the task already
      stopped, or played, as the specification does: its action never changes. */
  lemma ReplaceTargets(t: Task, spec: TaskSpec, now: int)
    requires SpecValid(spec)
    ensures OneTarget(Replaced(t, spec, now).config) <==> (t.config.action == "stop" <==> spec.action == "stop")
  {
  }

  /** Every stored cron task has an expression the scheduler can use. */
  lemma StoredCronIsUsable(t: Task)
    requires Sound(t) && t.config.kind == "cron"
    ensures C.CronOf(t.config.cron).Ok? && Cron.Usable(C.CronOf(t.config.cron).value)
  {
    C.ParsedIsUsable(t.config.cron);
  }
}
