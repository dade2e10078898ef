/** The document over whole runs: every service operation, and snapshots created
    and restored in phases between them. */
module DocumentRuns {
  import opened Wrappers
  import opened Sequences
  import opened Documents
  import opened Strings
  import opened Snapshots
  import M = MediaLibrary
  import P = Playlists
  import T = ScheduleTasks
  import V = Reviews
  import R = Retention

  // ---------------------------------------------------------------- operations

  /** The operations that are one store update. */
  datatype Operation =
    | AddMedia(items: seq<M.Given>)
    | ScanMedia(found: seq<M.Found>)
    | DeleteMedia(id: string)
    | CreatePlaylist(name: string, desc: string, ids: seq<string>, loop: bool, drawn: string)
    | EditPlaylist(id: string, edit: P.Edit)
    | AddItem(id: string, media: string)
    | DeletePlaylist(id: string)
    | CreateTask(spec: TaskSpec, drawn: string)
    | ReplaceTask(id: string, spec: TaskSpec)
    | SetEnabled(id: string, enabled: bool)
    | DeleteTask(id: string)
    | CreateSuggestion(kind: string, title: string, payload: map<string, string>, drawn: string)
    | Approve(id: string, name: string, drawn: string)
    | Reject(id: string, reason: string)
    | AddScene(id: string)
    | DeleteScene(id: string)
    | AddTemplate(template: Template)
    | DeleteTemplate(id: string)
    | DeleteSnapshot(id: string)

  function DeleteSceneFrom(d: Data, id: string): Outcome {
    match First(d.scenes, (x: string) => x == id)
    case None => Fail(NotFound)
    case Some(i) => Commit(d.(scenes := Without(d.scenes, i)))
  }

  function DeleteTemplateFrom(d: Data, id: string): Outcome {
    match First(d.templates, (t: Template) => t.id == id)
    case None => Fail(NotFound)
    case Some(i) => Commit(d.(templates := Without(d.templates, i)))
  }

  function Apply(fs: M.Files, d: Data, op: Operation, now: int): Outcome {
    match op
    case AddMedia(items) => M.AddMedia(fs, d, items, now)
    case ScanMedia(found) => M.ScanMedia(fs, d, found, now)
    case DeleteMedia(id) => M.DeleteMedia(d, id)
    case CreatePlaylist(name, desc, ids, loop, drawn) => P.CreatePlaylist(d, name, desc, ids, loop, drawn, now)
    case EditPlaylist(id, edit) => P.EditPlaylist(d, id, edit, now)
    case AddItem(id, media) => P.AddItem(d, id, media)
    case DeletePlaylist(id) => P.DeletePlaylist(d, id)
    case CreateTask(spec, drawn) => T.CreateTask(d, spec, drawn, now)
    case ReplaceTask(id, spec) => T.ReplaceTask(d, id, spec, now)
    case SetEnabled(id, enabled) => T.SetEnabled(d, id, enabled, now)
    case DeleteTask(id) => T.DeleteTask(d, id)
    case CreateSuggestion(kind, title, payload, drawn) => V.CreateSuggestion(d, kind, title, payload, drawn, now)
    case Approve(id, name, drawn) => V.Approve(d, id, name, drawn, now)
    case Reject(id, reason) => V.Reject(d, id, reason, now)
    case AddScene(id) => Commit(d.(scenes := d.scenes + [id]))
    case DeleteScene(id) => DeleteSceneFrom(d, id)
    case AddTemplate(t) => Commit(d.(templates := d.templates + [t]))
    case DeleteTemplate(id) => DeleteTemplateFrom(d, id)
    case DeleteSnapshot(id) => Snapshots.DeleteSnapshot(d, id)
  }

  // ---------------------------------------------------------------- runs

  /** The live document and the calls of Create and Restore under way, by a
      number the caller chooses. `issued` remembers every snapshot ever
      stored. */
  datatype World = World(
    doc: Data, captured: map<nat, Capture>, found: map<nat, Data>, carried: map<nat, Data>,
    issued: map<string, R.Entry<Capture>>)

  datatype Event =
    | Update(op: Operation, now: int, written: bool)
    | BeginCreate(call: nat, operator: string, description: string, hash: string)
    | EndCreate(call: nat, id: string, created: int, now: int, written: bool)
    | FindSnapshot(call: nat, id: string)
    | CarryOver(call: nat, now: int)
    | Swap(call: nat, written: bool)

  function Step(fs: M.Files, max: int, w: World, e: Event): World {
    match e
    case Update(op, now, written) => w.(doc := Settle(w.doc, Apply(fs, w.doc, op, now), now, written).0)
    case BeginCreate(call, operator, description, hash) =>
      w.(captured := w.captured[call := Capture(operator, description, hash, Payload(w.doc))])
    case EndCreate(call, id, created, now, written) =>
      if call !in w.captured || id in w.issued then w
      else EndedCreate(w, call, R.Entry(id, created, w.captured[call]), max, now, written)
    case FindSnapshot(call, id) =>
      (match FindPayload(w.doc, id)
       case None => w
       case Some(payload) => w.(found := w.found[call := payload]))
    case CarryOver(call, now) =>
      if call !in w.found then w
      else w.(found := w.found - {call}, carried := w.carried[call := CarriedOver(w.found[call], w.doc, now)])
    case Swap(call, written) =>
      if call !in w.carried then w
      else w.(carried := w.carried - {call}, doc := if written then w.carried[call] else w.doc)
  }

  /** The id of a new snapshot is one never drawn before. */
  function EndedCreate(w: World, call: nat, entry: R.Entry<Capture>, max: int, now: int, written: bool): World {
    w.(captured := w.captured - {call},
       doc := Settle(w.doc, StoreSnapshot(w.doc, entry, max), now, written).0,
       issued := if written then w.issued[entry.id := entry] else w.issued)
  }

  function Run(fs: M.Files, max: int, w: World, events: seq<Event>): World {
    if events == [] then w
    else var k := |events| - 1; Step(fs, max, Run(fs, max, w, events[..k]), events[k])
  }

  const EMPTY := Data([], [], [], [], [], [], [], NO_TIME)

  const START := World(EMPTY, map[], map[], map[], map[])

  // ---------------------------------------------------------------- the invariant

  /** References resolve, paths are distinct, tasks are sound. */
  ghost predicate Consistent(fs: M.Files, d: Data) {
    Refs(d) && M.PathsDistinct(fs, d.media) && T.AllSound(d.tasks)
  }

  /** Every stored snapshot is the one issued under its id. */
  ghost predicate History(list: seq<R.Entry<Capture>>, issued: map<string, R.Entry<Capture>>) {
    R.Distinct(list) && forall e :: e in list ==> e.id in issued && issued[e.id] == e
  }

  ghost predicate WholeDoc(fs: M.Files, d: Data, issued: map<string, R.Entry<Capture>>) {
    Consistent(fs, d) && History(d.snapshots, issued)
  }

  ghost predicate GoodPayload(fs: M.Files, d: Data) {
    Bare(d) && Consistent(fs, d)
  }

  ghost predicate Inv(fs: M.Files, w: World) {
    && WholeDoc(fs, w.doc, w.issued)
    && (forall id :: id in w.issued ==> w.issued[id].id == id && GoodPayload(fs, w.issued[id].body.data))
    && (forall c :: c in w.captured ==> GoodPayload(fs, w.captured[c].data))
    && (forall c :: c in w.found ==> GoodPayload(fs, w.found[c]))
    && (forall c :: c in w.carried ==> WholeDoc(fs, w.carried[c], w.issued))
  }

  lemma SameRefs(a: Data, b: Data)
    requires Refs(a) && a.media == b.media && a.playlists == b.playlists && a.tasks == b.tasks
    ensures Refs(b)
  {
  }

  /** Every operation keeps the document consistent. */
  lemma ApplyKeepsConsistent(fs: M.Files, d: Data, op: Operation, now: int)
    requires Consistent(fs, d) && Apply(fs, d, op, now).Commit?
    ensures Consistent(fs, Apply(fs, d, op, now).doc)
  {
    hide Refs, M.PathsDistinct, T.AllSound;
    hide M.Register, M.Merge, P.ApplyEdit, P.PickItems, T.CheckSpec, T.RefsResolve, Blank;
    match op
    case AddMedia(items) =>
      M.AddKeepsRefs(fs, d, items, now);
      M.RegisterKeeps(fs, d.media, items, now);
    case ScanMedia(found) =>
      M.ScanKeepsRefs(fs, d, found, now);
      M.MergeKeeps(fs, d.media, found, now);
    case DeleteMedia(id) =>
      M.DeleteKeepsRefs(d, id);
      M.WithoutDistinct(fs, d.media, First(d.media, (m: Media) => m.id == id).value);
    case CreatePlaylist(name, desc, ids, loop, drawn) => P.CreateKeepsRefs(d, name, desc, ids, loop, drawn, now);
    case EditPlaylist(id, edit) => P.EditKeepsRefs(d, id, edit, now);
    case AddItem(id, media) => P.AddItemKeepsRefs(d, id, media);
    case DeletePlaylist(id) => P.DeleteKeepsRefs(d, id);
    case CreateTask(spec, drawn) => T.CreateKeeps(d, spec, drawn, now);
    case ReplaceTask(id, spec) => T.ReplaceKeeps(d, id, spec, now);
    case SetEnabled(id, enabled) => T.EnableKeeps(d, id, enabled, now);
    case DeleteTask(id) => T.DeleteKeeps(d, id);
    case Approve(id, name, drawn) => V.ApprovalKeepsRefs(d, id, name, drawn, now);
    case _ => SameRefs(d, Apply(fs, d, op, now).doc);
  }

  /** No operation adds or alters a stored snapshot. */
  lemma ApplyKeepsHistory(fs: M.Files, d: Data, op: Operation, now: int)
    requires R.Distinct(d.snapshots) && Apply(fs, d, op, now).Commit?
    ensures SubList(Apply(fs, d, op, now).doc.snapshots, d.snapshots)
  {
    if op.DeleteSnapshot? {
      WithoutSubList(d.snapshots, First(d.snapshots, (s: R.Entry<Capture>) => s.id == op.id).value);
    }
  }

  lemma SubHistory(part: seq<R.Entry<Capture>>, whole: seq<R.Entry<Capture>>, issued: map<string, R.Entry<Capture>>)
    requires SubList(part, whole) && History(whole, issued)
    ensures History(part, issued)
  {
  }

  /** The business collections of a consistent document make a good payload. */
  lemma PayloadIsGood(fs: M.Files, d: Data)
    requires Consistent(fs, d)
    ensures GoodPayload(fs, Payload(d))
  {
    assert forall t :: TaskRefs(d.media, d.playlists, t) == TaskRefs(Payload(d).media, Payload(d).playlists, t);
  }

  lemma FoundIsGood(fs: M.Files, w: World, id: string)
    requires Inv(fs, w) && FindPayload(w.doc, id).Some?
    ensures GoodPayload(fs, FindPayload(w.doc, id).value)
  {
    var i := First(w.doc.snapshots, (s: R.Entry<Capture>) => s.id == id).value;
    assert w.doc.snapshots[i] in w.doc.snapshots;
  }

  lemma StoreKeeps(fs: M.Files, w: World, call: nat, entry: R.Entry<Capture>, max: int, now: int, written: bool)
    requires Inv(fs, w) && entry.id !in w.issued && GoodPayload(fs, entry.body.data)
    ensures Inv(fs, EndedCreate(w, call, entry, max, now, written))
  {
    hide Consistent, Bare;
    var after := EndedCreate(w, call, entry, max, now, written);
    if written {
      var longer := w.doc.snapshots + [entry];
      forall i | 0 <= i < |w.doc.snapshots|
        ensures w.doc.snapshots[i].id != entry.id
      {
        assert w.doc.snapshots[i] in w.doc.snapshots;
      }
      assert History(longer, after.issued);
      RolledSubList(longer, max);
      SubHistory(after.doc.snapshots, longer, after.issued);
      SameBusiness(fs, w.doc, after.doc);
      forall c | c in w.carried
        ensures WholeDoc(fs, w.carried[c], after.issued)
      {
        assert WholeDoc(fs, w.carried[c], w.issued);
      }
    }
  }

  lemma SameBusiness(fs: M.Files, a: Data, b: Data)
    requires Consistent(fs, a) && Payload(a) == Payload(b)
    ensures Consistent(fs, b)
  {
    assert a.media == Payload(a).media == Payload(b).media == b.media;
    assert a.playlists == Payload(a).playlists == Payload(b).playlists == b.playlists;
    assert a.tasks == Payload(a).tasks == Payload(b).tasks == b.tasks;
  }

  lemma StepKeeps(fs: M.Files, max: int, w: World, e: Event)
    requires Inv(fs, w)
    ensures Inv(fs, Step(fs, max, w, e))
  {
    hide Consistent, Bare, Apply, EndedCreate, FindPayload;
    match e
    case Update(op, now, written) =>
      if Apply(fs, w.doc, op, now).Commit? && written {
        UpdateKeeps(fs, w, op, now);
      }
    case BeginCreate(call, operator, description, hash) => PayloadIsGood(fs, w.doc);
    case EndCreate(call, id, created, now, written) =>
      if call in w.captured && id !in w.issued {
        StoreKeeps(fs, w, call, R.Entry(id, created, w.captured[call]), max, now, written);
      }
    case FindSnapshot(call, id) =>
      if FindPayload(w.doc, id).Some? {
        FoundIsGood(fs, w, id);
      }
    case CarryOver(call, now) =>
      if call in w.found {
        SameBusiness(fs, w.found[call], CarriedOver(w.found[call], w.doc, now));
      }
    case Swap(call, written) =>
  }

  lemma UpdateKeeps(fs: M.Files, w: World, op: Operation, now: int)
    requires Inv(fs, w) && Apply(fs, w.doc, op, now).Commit?
    ensures Inv(fs, w.(doc := Settle(w.doc, Apply(fs, w.doc, op, now), now, true).0))
  {
    hide Consistent, Apply, Bare;
    var copy := Apply(fs, w.doc, op, now).doc;
    ApplyKeepsConsistent(fs, w.doc, op, now);
    ApplyKeepsHistory(fs, w.doc, op, now);
    SubHistory(copy.snapshots, w.doc.snapshots, w.issued);
    SameBusiness(fs, copy, copy.(updatedAt := now));
  }

  // ---------------------------------------------------------------- the theorems

  /** In every reachable state every reference of the live document resolves, of
      every stored payload too, no two media share a path, every stored task is
      sound, and no payload holds a snapshot. */
  lemma {:induction false} RunKeeps(fs: M.Files, max: int, events: seq<Event>)
    ensures Inv(fs, Run(fs, max, START, events))
  {
    if events != [] {
      var k := |events| - 1;
      RunKeeps(fs, max, events[..k]);
      StepKeeps(fs, max, Run(fs, max, START, events[..k]), events[k]);
    }
  }

  lemma StoredPayloads(fs: M.Files, max: int, events: seq<Event>, e: R.Entry<Capture>)
    requires e in Run(fs, max, START, events).doc.snapshots
    ensures Refs(e.body.data) && e.body.data.snapshots == [] && e.body.data.templates == []
  {
    RunKeeps(fs, max, events);
    var w := Run(fs, max, START, events);
    assert w.issued[e.id] == e && GoodPayload(fs, w.issued[e.id].body.data);
  }

  /** A write that fails leaves the live document and its history as they were. */
  lemma FailedWrites(fs: M.Files, max: int, w: World, e: Event)
    requires (e.Update? || e.EndCreate? || e.Swap?) && !e.written
    ensures Step(fs, max, w, e).doc == w.doc && Step(fs, max, w, e).issued == w.issued
  {
    hide Apply, Rolled;
  }

  /** A write that succeeds makes the changed copy live, stamped with its time; an
      operation that fails or has nothing to do changes nothing. */
  lemma WritesMean(fs: M.Files, max: int, w: World, op: Operation, now: int)
    ensures var t := Step(fs, max, w, Update(op, now, true));
            if Apply(fs, w.doc, op, now).Commit? then t == w.(doc := Apply(fs, w.doc, op, now).doc.(updatedAt := now))
            else t == w
  {
    hide Apply;
  }

  /** The second phase of Create appends its snapshot under an id not drawn before and
      rolls the history; the business collections stay. */
  lemma CreateStores(fs: M.Files, max: int, w: World, call: nat, id: string, created: int, now: int)
    requires call in w.captured && id !in w.issued
    ensures var t := Step(fs, max, w, EndCreate(call, id, created, now, true));
            var e := R.Entry(id, created, w.captured[call]);
            && t.doc == w.doc.(snapshots := t.doc.snapshots, updatedAt := now)
            && (max <= 0 ==> t.doc.snapshots == w.doc.snapshots + [e])
            && (max > 0 ==> t.doc.snapshots == R.Retain(w.doc.snapshots + [e], R.Every, max))
            && t.issued == w.issued[id := e]
  {
    hide R.Retain;
  }

  /** Every phase uses up what the one before it left, whether the write succeeds or
      not. */
  lemma PhasesAreUsedUp(fs: M.Files, max: int, w: World, e: Event)
    ensures e.EndCreate? && e.id !in w.issued ==> e.call !in Step(fs, max, w, e).captured
    ensures e.CarryOver? ==> e.call !in Step(fs, max, w, e).found
    ensures e.Swap? ==> e.call !in Step(fs, max, w, e).carried
  {
    hide Apply, Rolled, FindPayload;
  }

  /** A snapshot, a scene or a template is deleted by its id: one with the id goes, or
      there is none and nothing changes. */
  lemma DeletionsMean(d: Data, id: string)
    ensures var o := Snapshots.DeleteSnapshot(d, id);
            if exists e :: e in d.snapshots && e.id == id
            then o.Commit? && exists i: nat ::
                   i < |d.snapshots| && d.snapshots[i].id == id
                   && o.doc == d.(snapshots := d.snapshots[..i] + d.snapshots[i + 1..])
            else o == Fail(NotFound)
    ensures var o := DeleteSceneFrom(d, id);
            if id in d.scenes
            then o.Commit? && exists i: nat ::
                   i < |d.scenes| && d.scenes[i] == id
                   && o.doc == d.(scenes := d.scenes[..i] + d.scenes[i + 1..])
            else o == Fail(NotFound)
    ensures var o := DeleteTemplateFrom(d, id);
            if exists t :: t in d.templates && t.id == id
            then o.Commit? && exists i: nat ::
                   i < |d.templates| && d.templates[i].id == id
                   && o.doc == d.(templates := d.templates[..i] + d.templates[i + 1..])
            else o == Fail(NotFound)
  {
    var s := First(d.snapshots, (e: R.Entry<Capture>) => e.id == id);
    assert s.Some? ==> d.snapshots[s.value] in d.snapshots;
    var t := First(d.templates, (t: Template) => t.id == id);
    assert t.Some? ==> d.templates[t.value] in d.templates;
  }

  // ---------------------------------------------------------------- snapshots are for ever

  lemma {:induction false} IssuedForEver(fs: M.Files, max: int, w: World, events: seq<Event>, id: string)
    requires id in w.issued
    ensures id in Run(fs, max, w, events).issued && Run(fs, max, w, events).issued[id] == w.issued[id]
  {
    if events != [] {
      var k := |events| - 1;
      IssuedForEver(fs, max, w, events[..k], id);
    }
  }

  lemma {:induction false} RunKeepsInv(fs: M.Files, max: int, w: World, events: seq<Event>)
    requires Inv(fs, w)
    ensures Inv(fs, Run(fs, max, w, events))
  {
    if events != [] {
      var k := |events| - 1;
      RunKeepsInv(fs, max, w, events[..k]);
      StepKeeps(fs, max, Run(fs, max, w, events[..k]), events[k]);
    }
  }

  /** A snapshot stored now and one stored later under the same id are the same,
      payload, hash and all. */
  lemma SnapshotsNeverChange(fs: M.Files, max: int, w: World, events: seq<Event>,
                             a: R.Entry<Capture>, b: R.Entry<Capture>)
    requires Inv(fs, w) && a.id == b.id
    requires a in w.doc.snapshots && b in Run(fs, max, w, events).doc.snapshots
    ensures a == b
  {
    RunKeepsInv(fs, max, w, events);
    IssuedForEver(fs, max, w, events, a.id);
  }

  /** The events leave the calls of Create with this number alone. */
  ghost predicate SparesCreate(events: seq<Event>, call: nat) {
    forall i :: 0 <= i < |events| && (events[i].BeginCreate? || events[i].EndCreate?) ==> events[i].call != call
  }

  lemma {:induction false} CapturedStays(fs: M.Files, max: int, w: World, events: seq<Event>, call: nat)
    requires call in w.captured && SparesCreate(events, call)
    ensures var after := Run(fs, max, w, events);
            call in after.captured && after.captured[call] == w.captured[call]
  {
    hide Step;
    if events != [] {
      var k := |events| - 1;
      CapturedStays(fs, max, w, events[..k], call);
      StepSparesCreate(fs, max, Run(fs, max, w, events[..k]), events[k], call);
    }
  }

  lemma StepSparesCreate(fs: M.Files, max: int, w: World, e: Event, call: nat)
    requires call in w.captured && ((e.BeginCreate? || e.EndCreate?) ==> e.call != call)
    ensures call in Step(fs, max, w, e).captured && Step(fs, max, w, e).captured[call] == w.captured[call]
  {
    hide Apply, FindPayload, Payload;
  }

  /** The events leave the calls of Restore with this number alone. */
  ghost predicate SparesRestore(events: seq<Event>, call: nat) {
    forall i :: 0 <= i < |events| && (events[i].FindSnapshot? || events[i].CarryOver? || events[i].Swap?)
      ==> events[i].call != call
  }

  lemma {:induction false} RestoringStays(fs: M.Files, max: int, w: World, events: seq<Event>, call: nat)
    requires SparesRestore(events, call)
    ensures var after := Run(fs, max, w, events);
            && (call in w.found ==> call in after.found && after.found[call] == w.found[call])
            && (call in w.carried ==> call in after.carried && after.carried[call] == w.carried[call])
  {
    hide Step;
    if events != [] {
      var k := |events| - 1;
      RestoringStays(fs, max, w, events[..k], call);
      StepSpares(fs, max, Run(fs, max, w, events[..k]), events[k], call);
    }
  }

  lemma StepSpares(fs: M.Files, max: int, w: World, e: Event, call: nat)
    requires (e.FindSnapshot? || e.CarryOver? || e.Swap?) ==> e.call != call
    ensures var after := Step(fs, max, w, e);
            && (call in w.found ==> call in after.found && after.found[call] == w.found[call])
            && (call in w.carried ==> call in after.carried && after.carried[call] == w.carried[call])
  {
    hide Apply, FindPayload, Payload;
  }

  // ---------------------------------------------------------------- the round trip

  /** Create in its two phases, with any events between them. */
  function Creating(fs: M.Files, max: int, w: World, call: nat, c: Capture, between: seq<Event>,
                    id: string, created: int, now: int): World
  {
    var begun := Step(fs, max, w, BeginCreate(call, c.operator, c.description, c.hash));
    Step(fs, max, Run(fs, max, begun, between), EndCreate(call, id, created, now, true))
  }

  /** Restore in its three phases, with any events between them. */
  function Carrying(fs: M.Files, max: int, w: World, call: nat, id: string, between: seq<Event>): World {
    Run(fs, max, Step(fs, max, w, FindSnapshot(call, id)), between)
  }

  function Swapping(fs: M.Files, max: int, w: World, call: nat, now: int, between: seq<Event>): World {
    Step(fs, max, Run(fs, max, Step(fs, max, w, CarryOver(call, now)), between), Swap(call, true))
  }

  /** What a Create issues is the business collections of the document it read. */
  lemma CreateIssues(fs: M.Files, max: int, w: World, call: nat, c: Capture, between: seq<Event>,
                     id: string, created: int, now: int)
    requires SparesCreate(between, call)
    requires id !in Run(fs, max, Step(fs, max, w, BeginCreate(call, c.operator, c.description, c.hash)), between).issued
    ensures var after := Creating(fs, max, w, call, c, between, id, created, now);
            && id in after.issued
            && var (e, made) := (after.issued[id], after.issued[id].body);
               && e.id == id && e.time == created
               && made.operator == c.operator && made.description == c.description && made.hash == c.hash
               && made.data.media == w.doc.media && made.data.playlists == w.doc.playlists
               && made.data.tasks == w.doc.tasks && made.data.suggestions == w.doc.suggestions
               && made.data.scenes == w.doc.scenes
               && made.data.snapshots == [] && made.data.templates == [] && made.data.updatedAt == NO_TIME
  {
    var begun := Step(fs, max, w, BeginCreate(call, c.operator, c.description, c.hash));
    CapturedStays(fs, max, begun, between, call);
  }

  /** A Restore of a snapshot still stored when it is looked up puts back the
      payload issued under its id, under the history and templates of the moment
      they were carried over. */
  lemma RestoreMeans(fs: M.Files, max: int, w: World, call: nat, e: R.Entry<Capture>,
                     first: seq<Event>, second: seq<Event>, now: int)
    requires Inv(fs, w) && e in w.doc.snapshots
    requires SparesRestore(first, call) && SparesRestore(second, call)
    ensures var carrying := Carrying(fs, max, w, call, e.id, first);
            Swapping(fs, max, carrying, call, now, second).doc
            == CarriedOver(w.issued[e.id].body.data, carrying.doc, now)
  {
    FoundById(w.doc, e);
    var sought := Step(fs, max, w, FindSnapshot(call, e.id));
    RestoringStays(fs, max, sought, first, call);
    var carrying := Run(fs, max, sought, first);
    RestoringStays(fs, max, Step(fs, max, carrying, CarryOver(call, now)), second, call);
  }

  /** The round trip: Create, then any events at all that leave the snapshot
      stored, then Restore, gives back exactly the business collections Create
      read. */
  lemma SnapshotRoundTrip(fs: M.Files, max: int, w: World, call: nat, c: Capture, between: seq<Event>, id: string,
                          created: int, at: int, edits: seq<Event>, e: R.Entry<Capture>,
                          again: nat, first: seq<Event>, second: seq<Event>, now: int)
    requires Inv(fs, w) && SparesCreate(between, call)
    requires id !in Run(fs, max, Step(fs, max, w, BeginCreate(call, c.operator, c.description, c.hash)), between).issued
    requires e.id == id
    requires e in Run(fs, max, Creating(fs, max, w, call, c, between, id, created, at), edits).doc.snapshots
    requires SparesRestore(first, again) && SparesRestore(second, again)
    ensures var edited := Run(fs, max, Creating(fs, max, w, call, c, between, id, created, at), edits);
            var carrying := Carrying(fs, max, edited, again, id, first);
            var restored := Swapping(fs, max, carrying, again, now, second).doc;
            && restored.media == w.doc.media && restored.playlists == w.doc.playlists
            && restored.tasks == w.doc.tasks && restored.suggestions == w.doc.suggestions
            && restored.scenes == w.doc.scenes
            && restored.snapshots == carrying.doc.snapshots
            && restored.templates == carrying.doc.templates
            && restored.updatedAt == now
  {
    hide Run, Step, Inv;
    CreateIssues(fs, max, w, call, c, between, id, created, at);
    CreatingKeepsInv(fs, max, w, call, c, between, id, created, at);
    var stored := Creating(fs, max, w, call, c, between, id, created, at);
    IssuedForEver(fs, max, stored, edits, id);
    RunKeepsInv(fs, max, stored, edits);
    RestoreMeans(fs, max, Run(fs, max, stored, edits), again, e, first, second, now);
  }

  lemma CreatingKeepsInv(fs: M.Files, max: int, w: World, call: nat, c: Capture, between: seq<Event>,
                         id: string, created: int, now: int)
    requires Inv(fs, w)
    ensures Inv(fs, Creating(fs, max, w, call, c, between, id, created, now))
  {
    hide Run, Step, Inv;
    var begin := BeginCreate(call, c.operator, c.description, c.hash);
    StepKeeps(fs, max, w, begin);
    RunKeepsInv(fs, max, Step(fs, max, w, begin), between);
    StepKeeps(fs, max, Run(fs, max, Step(fs, max, w, begin), between), EndCreate(call, id, created, now, true));
  }

  /** The phases of Restore are not one update: a snapshot stored after the
      history was carried over is gone once the restored document is swapped
      in. */
  lemma InterleavedSnapshotIsLost(fs: M.Files, max: int, w: World, call: nat, now: int, second: seq<Event>,
                                  e: R.Entry<Capture>)
    requires Inv(fs, w) && call in w.found && SparesRestore(second, call)
    requires e.id !in w.issued && e in Run(fs, max, Step(fs, max, w, CarryOver(call, now)), second).doc.snapshots
    ensures e !in Swapping(fs, max, w, call, now, second).doc.snapshots
  {
    RestoringStays(fs, max, Step(fs, max, w, CarryOver(call, now)), second, call);
  }

  // ---------------------------------------------------------------- review decisions

  lemma ApplyKeepsDecisions(fs: M.Files, d: Data, op: Operation, now: int)
    requires Apply(fs, d, op, now).Commit?
    ensures V.DecisionsKept(d.suggestions, Apply(fs, d, op, now).doc.suggestions)
  {
    hide M.Register, M.Merge, P.ApplyEdit, P.PickItems, T.CheckSpec, T.RefsResolve, Blank;
  }
}
