/** Review decisions over whole runs: final but for a Restore, and exactly which
    Restores undo one. */
module DecisionRuns {
  import opened Wrappers
  import opened Strings
  import opened Documents
  import opened Snapshots
  import opened DocumentRuns
  import M = MediaLibrary
  import V = Reviews
  import R = Retention

  // ---------------------------------------------------------------- between restores

  lemma KeptTransitive(a: seq<Suggestion>, b: seq<Suggestion>, c: seq<Suggestion>)
    requires V.DecisionsKept(a, b) && V.DecisionsKept(b, c)
    ensures V.DecisionsKept(a, c)
  {
  }

  lemma StepKeepsDecisions(fs: M.Files, max: int, w: World, e: Event)
    requires !e.Swap?
    ensures V.DecisionsKept(w.doc.suggestions, Step(fs, max, w, e).doc.suggestions)
  {
    if e.Update? && Apply(fs, w.doc, e.op, e.now).Commit? {
      ApplyKeepsDecisions(fs, w.doc, e.op, e.now);
    }
    hide Apply, FindPayload, Rolled;
  }

  ghost predicate NoSwap(events: seq<Event>) {
    forall i :: 0 <= i < |events| ==> !events[i].Swap?
  }

  /** Without a Restore going through, a decided suggestion stays where and as it
      is. */
  lemma {:induction false} DecisionsAreFinal(fs: M.Files, max: int, w: World, events: seq<Event>)
    requires NoSwap(events)
    ensures V.DecisionsKept(w.doc.suggestions, Run(fs, max, w, events).doc.suggestions)
  {
    if events != [] {
      hide Step;
      var k := |events| - 1;
      DecisionsAreFinal(fs, max, w, events[..k]);
      var before := Run(fs, max, w, events[..k]);
      StepKeepsDecisions(fs, max, before, events[k]);
      KeptTransitive(w.doc.suggestions, before.doc.suggestions, Step(fs, max, before, events[k]).doc.suggestions);
    }
  }

  // ---------------------------------------------------------------- across a restore

  /** Every decided suggestion is still there, decided as it was. */
  ghost predicate DecisionsStand(before: seq<Suggestion>, after: seq<Suggestion>) {
    forall i :: 0 <= i < |before| && before[i].status != Pending ==> i < |after| && after[i] == before[i]
  }

  /** Every suggestion decided by now was decided then. */
  ghost predicate NoneDecidedSince(then_: seq<Suggestion>, now: seq<Suggestion>) {
    forall i :: 0 <= i < |now| && now[i].status != Pending ==> i < |then_| && then_[i].status != Pending
  }

  lemma KeptToCreate(fs: M.Files, max: int, w: World, call: nat, c: Capture, between: seq<Event>,
                     id: string, created: int, at: int)
    requires NoSwap(between)
    ensures V.DecisionsKept(w.doc.suggestions,
                            Creating(fs, max, w, call, c, between, id, created, at).doc.suggestions)
  {
    hide Step, Run;
    var begin := BeginCreate(call, c.operator, c.description, c.hash);
    var begun := Step(fs, max, w, begin);
    var ready := Run(fs, max, begun, between);
    var end := EndCreate(call, id, created, at, true);
    StepKeepsDecisions(fs, max, w, begin);
    DecisionsAreFinal(fs, max, begun, between);
    StepKeepsDecisions(fs, max, ready, end);
    KeptTransitive(w.doc.suggestions, begun.doc.suggestions, ready.doc.suggestions);
    KeptTransitive(w.doc.suggestions, ready.doc.suggestions, Step(fs, max, ready, end).doc.suggestions);
  }

  /** The document the swap of a Restore replaces. */
  function Replaced(fs: M.Files, max: int, w: World, call: nat, now: int, between: seq<Event>): Data {
    Run(fs, max, Step(fs, max, w, CarryOver(call, now)), between).doc
  }

  lemma KeptToSwap(fs: M.Files, max: int, w: World, call: nat, id: string,
                   first: seq<Event>, second: seq<Event>, now: int)
    requires NoSwap(first) && NoSwap(second)
    ensures V.DecisionsKept(w.doc.suggestions,
                            Replaced(fs, max, Carrying(fs, max, w, call, id, first), call, now, second).suggestions)
  {
    hide Step, Run;
    var found := Step(fs, max, w, FindSnapshot(call, id));
    var carrying := Run(fs, max, found, first);
    var carried := Step(fs, max, carrying, CarryOver(call, now));
    var last := Run(fs, max, carried, second);
    StepKeepsDecisions(fs, max, w, FindSnapshot(call, id));
    DecisionsAreFinal(fs, max, found, first);
    StepKeepsDecisions(fs, max, carrying, CarryOver(call, now));
    DecisionsAreFinal(fs, max, carried, second);
    KeptTransitive(w.doc.suggestions, found.doc.suggestions, carrying.doc.suggestions);
    KeptTransitive(w.doc.suggestions, carrying.doc.suggestions, carried.doc.suggestions);
    KeptTransitive(w.doc.suggestions, carried.doc.suggestions, last.doc.suggestions);
  }

  /** Create, edits, Restore, their phases interleaved with anything but another
      swap: the Restore keeps every decision if and only if none was made since
      Create read the document. */
  lemma RestoreKeepsDecisionsIff(fs: M.Files, max: int, w: World, call: nat, c: Capture, between: seq<Event>,
                                 id: string, created: int, at: int, edits: seq<Event>, e: R.Entry<Capture>,
                                 again: nat, first: seq<Event>, second: seq<Event>, now: int)
    requires Inv(fs, w) && SparesCreate(between, call)
    requires id !in Run(fs, max, Step(fs, max, w, BeginCreate(call, c.operator, c.description, c.hash)), between).issued
    requires e.id == id
    requires e in Run(fs, max, Creating(fs, max, w, call, c, between, id, created, at), edits).doc.snapshots
    requires SparesRestore(first, again) && SparesRestore(second, again)
    requires NoSwap(between) && NoSwap(edits) && NoSwap(first) && NoSwap(second)
    ensures var edited := Run(fs, max, Creating(fs, max, w, call, c, between, id, created, at), edits);
            var carrying := Carrying(fs, max, edited, again, id, first);
            var live := Replaced(fs, max, carrying, again, now, second);
            var restored := Swapping(fs, max, carrying, again, now, second).doc;
            DecisionsStand(live.suggestions, restored.suggestions)
            <==> NoneDecidedSince(w.doc.suggestions, live.suggestions)
  {
    hide Run, Step, Inv, Creating, Carrying, Swapping, Replaced;
    var stored := Creating(fs, max, w, call, c, between, id, created, at);
    var edited := Run(fs, max, stored, edits);
    var carrying := Carrying(fs, max, edited, again, id, first);
    var live := Replaced(fs, max, carrying, again, now, second);
    SnapshotRoundTrip(fs, max, w, call, c, between, id, created, at, edits, e, again, first, second, now);
    var restored := Swapping(fs, max, carrying, again, now, second).doc;
    KeptToCreate(fs, max, w, call, c, between, id, created, at);
    DecisionsAreFinal(fs, max, stored, edits);
    KeptToSwap(fs, max, edited, again, id, first, second, now);
    KeptTransitive(w.doc.suggestions, stored.doc.suggestions, edited.doc.suggestions);
    KeptTransitive(w.doc.suggestions, edited.doc.suggestions, live.suggestions);
    StandIff(w.doc.suggestions, live.suggestions);
  }

  lemma StandIff(then_: seq<Suggestion>, now: seq<Suggestion>)
    requires V.DecisionsKept(then_, now)
    ensures DecisionsStand(now, then_) <==> NoneDecidedSince(then_, now)
  {
  }

  /** Whatever happened in between, a Restore keeps the decisions of the document
      it replaces exactly if the payload issued under its id holds them. */
  lemma RestoreKeepsDecisions(fs: M.Files, max: int, w: World, call: nat, e: R.Entry<Capture>,
                              first: seq<Event>, second: seq<Event>, now: int)
    requires Inv(fs, w) && e in w.doc.snapshots
    requires SparesRestore(first, call) && SparesRestore(second, call)
    ensures var carrying := Carrying(fs, max, w, call, e.id, first);
            var live := Replaced(fs, max, carrying, call, now, second);
            var restored := Swapping(fs, max, carrying, call, now, second).doc;
            DecisionsStand(live.suggestions, restored.suggestions)
            <==> DecisionsStand(live.suggestions, w.issued[e.id].body.data.suggestions)
  {
    hide Run, Step, DecisionsStand, Carrying, Swapping, Replaced;
    RestoreMeans(fs, max, w, call, e, first, second, now);
    assert Swapping(fs, max, Carrying(fs, max, w, call, e.id, first), call, now, second).doc.suggestions
        == w.issued[e.id].body.data.suggestions;
  }

  // ---------------------------------------------------------------- a decision undone

  const MEDIA := Media("m", "m", "m", "", 0, NO_TIME, false, "", false, 0.0, 0, 0, 0, 0, 0)

  /** A registered media and a suggestion naming it. */
  function Suggesting(): seq<Event> {
    [ Update(AddMedia([M.Given(Some(MEDIA), "")]), 1, true),
      Update(CreateSuggestion("media_recommend", "t", map[V.MEDIA_KEY := "m"], "s"), 2, true) ]
  }

  const SUGGESTION := Suggestion("s", "media_recommend", "t", map[V.MEDIA_KEY := "m"], Pending, "", 2, None, 2)

  lemma Added(fs: M.Files, items: seq<M.Given>)
    requires |items| == 1 && items[0].media == Some(MEDIA)
    ensures var o := M.AddMedia(fs, EMPTY, items, 1);
            o.Commit? && o.doc == EMPTY.(media := o.doc.media) && HasMedia(o.doc.media, "m")
  {
    assert !Blank("m");
    var m := M.Prepare(fs, items[0].media, items[0].drawn, 1).value;
    assert m.id == "m";
    assert items[1..] == [];
    assert [] + [m] == [m] && [m][0] == m;
    assert M.Register(fs, [m], [], 1) == Ok([m]);
    assert M.Register(fs, [], items, 1) == Ok([m]);
  }

  lemma Suggested(fs: M.Files, max: int)
    ensures var w := Run(fs, max, START, Suggesting());
            && w.doc.suggestions == [SUGGESTION] && w.doc.playlists == [] && w.doc.snapshots == []
            && w.issued == map[] && HasMedia(w.doc.media, "m")
  {
    var (add, suggest) := (Suggesting()[0], Suggesting()[1]);
    assert Suggesting()[..1] == [add];
    RunOne(fs, max, START, add);
    Added(fs, [M.Given(Some(MEDIA), "")]);
    assert Run(fs, max, START, Suggesting()) == Step(fs, max, Run(fs, max, START, [add]), suggest);
    hide Run, M.AddMedia;
    assert V.MEDIA_KEY in map[V.MEDIA_KEY := "m"];
  }

  lemma RunOne(fs: M.Files, max: int, w: World, e: Event)
    ensures Run(fs, max, w, [e]) == Step(fs, max, w, e)
  {
    hide Step;
    assert [e][..0] == [] && Run(fs, max, w, []) == w;
  }

  const CAPTURE := Capture("", "", "", EMPTY)

  const APPROVAL := Update(Approve("s", "n", "p"), 4, true)

  const ENTRY := R.Entry("c", 3, CAPTURE)

  lemma OneIsKept(e: R.Entry<Capture>, max: int)
    ensures Rolled([e], max) == [e]
  {
    if max > 0 {
      R.FilterOne(e, R.Every);
      R.RetainAll([e], R.Every, max);
    }
  }

  /** A Create on its own stores its snapshot and changes nothing else. */
  lemma Captured(fs: M.Files, max: int, w: World)
    requires w.doc.snapshots == [] && w.issued == map[]
    ensures var e := ENTRY.(body := CAPTURE.(data := Payload(w.doc)));
            Creating(fs, max, w, 0, CAPTURE, [], "c", 3, 3).doc == w.doc.(snapshots := [e], updatedAt := 3)
  {
    var e := ENTRY.(body := CAPTURE.(data := Payload(w.doc)));
    OneIsKept(e, max);
    assert [] + [e] == [e];
  }

  /** The approval of the suggestion. */
  lemma Approved(fs: M.Files, max: int, w: World)
    requires w.doc.suggestions == [SUGGESTION] && w.doc.playlists == [] && HasMedia(w.doc.media, "m")
    ensures var d := Run(fs, max, w, [APPROVAL]).doc;
            && d.snapshots == w.doc.snapshots && |d.playlists| == 1
            && |d.suggestions| == 1 && d.suggestions[0].status == Applied
  {
    assert !Blank("m") && !Blank("n") && Trim("m") == "m";
    RunOne(fs, max, w, APPROVAL);
    V.ApprovalApplies(w.doc, "s", "n", "p", 4, 0);
    ApprovalSpares(w.doc);
    hide Run, V.Approve, Trim;
  }

  lemma ApprovalSpares(d: Data)
    requires d.suggestions == [SUGGESTION]
    ensures var o := V.Approve(d, "s", "n", "p", 4);
            o.Commit? ==> o.doc.snapshots == d.snapshots && |o.doc.suggestions| == 1
  {
  }

  /** Suggested, captured, approved, restored: the suggestion is pending again and
      the playlist of the approval is gone. */
  lemma RestoreUndoesApproval(fs: M.Files, max: int)
    ensures var w := Run(fs, max, START, Suggesting());
            var approved := Run(fs, max, Creating(fs, max, w, 0, CAPTURE, [], "c", 3, 3), [APPROVAL]);
            var restored := Swapping(fs, max, Carrying(fs, max, approved, 1, "c", []), 1, 5, []);
            && |approved.doc.suggestions| == |approved.doc.playlists| == 1
            && approved.doc.suggestions[0].status == Applied
            && restored.doc.suggestions == [SUGGESTION] && restored.doc.playlists == []
  {
    var w := Run(fs, max, START, Suggesting());
    RunKeeps(fs, max, Suggesting());
    Suggested(fs, max);
    Captured(fs, max, w);
    var stored := Creating(fs, max, w, 0, CAPTURE, [], "c", 3, 3);
    Approved(fs, max, stored);
    assert Run(fs, max, Step(fs, max, w, BeginCreate(0, "", "", "")), []).issued == map[];
    assert CAPTURE.operator == CAPTURE.description == CAPTURE.hash == "";
    hide Run, Step, Inv, Creating, Carrying, Swapping;
    SnapshotRoundTrip(fs, max, w, 0, CAPTURE, [], "c", 3, 3, [APPROVAL], stored.doc.snapshots[0], 1, [], [], 5);
  }
}
