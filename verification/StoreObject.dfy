/** The store and its services: every method works on a copy of the document,
    and only a finished copy that was written replaces the live one. */
module StoreObject {
  import opened Wrappers
  import opened Strings
  import opened Documents
  import M = MediaLibrary
  import P = Playlists
  import T = ScheduleTasks
  import V = Reviews
  import S = Snapshots
  import R = Retention

  class Store {
    var data: Data
    var dirty: bool

    constructor ()
      ensures data == Data([], [], [], [], [], [], [], NO_TIME) && !dirty
    {
      data := Data([], [], [], [], [], [], [], NO_TIME);
      dirty := false;
    }

    /** The end of Update: stamp, write, swap. */
    method Finish(copy: Data, now: int, written: bool) returns (r: Result<(), Fault>)
      modifies this
      ensures (data, r) == Settle(old(data), Commit(copy), now, written)
      ensures data == (if written then copy.(updatedAt := now) else old(data)) && (r.Ok? <==> written)
      ensures dirty == (if written then false else old(dirty))
    {
      if !written {
        return Err(WriteFailed);
      }
      data := copy.(updatedAt := now);
      dirty := false;
      return Ok(());
    }

    /** Replace writes the document as it is given. */
    method Replace(doc: Data, written: bool) returns (r: Result<(), Fault>)
      modifies this
      ensures data == if written then doc else old(data)
      ensures r == if written then Ok(()) else Err(WriteFailed)
    {
      if !written {
        return Err(WriteFailed);
      }
      data := doc;
      dirty := false;
      return Ok(());
    }

    // -------------------------------------------------------------- media

    method AddMedia(fs: M.Files, items: seq<M.Given>, now: int, written: bool) returns (r: Result<(), Fault>)
      modifies this
      ensures (data, r) == Settle(old(data), M.AddMedia(fs, old(data), items, now), now, written)
    {
      var copy := data;
      var i := 0;
      while i < |items|
        invariant 0 <= i <= |items|
        invariant data == old(data) && copy == data.(media := copy.media)
        invariant M.Register(fs, data.media, items, now) == M.Register(fs, copy.media, items[i..], now)
      {
        var prepared := M.Prepare(fs, items[i].media, items[i].drawn, now);
        if prepared.Err? {
          return Err(prepared.error);
        }
        var m := prepared.value;
        var taken := FindFirst(copy.media, (e: Media) => fs.norm(e.path) == fs.norm(m.path));
        if taken.Some? {
          return Err(Exists);
        }
        copy := copy.(media := copy.media + [m]);
        i := i + 1;
      }
      r := Finish(copy, now, written);
    }

    method ScanMedia(fs: M.Files, found: seq<M.Found>, now: int, written: bool) returns (r: Result<(), Fault>)
      modifies this
      ensures (data, r) == Settle(old(data), M.ScanMedia(fs, old(data), found, now), now, written)
    {
      hide M.Merge, M.MergeOne, Indexed;
      var media := data.media;
      var byPath := PathIndex(fs, media);
      var i := 0;
      while i < |found|
        invariant 0 <= i <= |found| && data == old(data)
        invariant Indexed(fs, media, byPath)
        invariant M.Merge(fs, data.media, found, now) == M.Merge(fs, media, found[i..], now)
      {
        MergeStep(fs, media, found[i..], now);
        media, byPath := MergeFile(fs, media, byPath, found[i], now);
        assert found[i..][1..] == found[i + 1..];
        i := i + 1;
      }
      MergeStep(fs, media, found[i..], now);
      r := Finish(data.(media := media), now, written);
    }

    method DeleteMedia(id: string, now: int, written: bool) returns (r: Result<(), Fault>)
      modifies this
      ensures (data, r) == Settle(old(data), M.DeleteMedia(old(data), id), now, written)
    {
      var copy := data;
      var at := FindFirst(copy.media, (m: Media) => m.id == id);
      if at.None? {
        return Err(NotFound);
      }
      var listed := FindFirst(copy.playlists, (p: Playlist) => id in p.items);
      if listed.Some? {
        return Err(InUse);
      }
      var played := FindFirst(copy.tasks, (t: Task) => t.config.media == id);
      if played.Some? {
        return Err(InUse);
      }
      copy := copy.(media := copy.media[..at.value] + copy.media[at.value + 1..]);
      r := Finish(copy, now, written);
    }

    // -------------------------------------------------------------- playlists

    method CreatePlaylist(name: string, desc: string, ids: seq<string>, loop: bool, drawn: string, now: int,
                          written: bool)
      returns (r: Result<(), Fault>)
      modifies this
      ensures (data, r)
        == Settle(old(data), P.CreatePlaylist(old(data), name, desc, ids, loop, drawn, now), now, written)
    {
      if Blank(name) {
        return Err(Invalid);
      }
      var copy := data;
      var items := P.SetItemsLoop(copy.media, ids);
      if items.Err? {
        return Err(items.error);
      }
      copy := copy.(playlists := copy.playlists + [Playlist(drawn, name, desc, "", items.value, loop, now, now)]);
      r := Finish(copy, now, written);
    }

    /** Update with one of the service's own callbacks. */
    method EditPlaylist(id: string, edit: P.Edit, now: int, written: bool) returns (r: Result<(), Fault>)
      modifies this
      ensures (data, r) == Settle(old(data), P.EditPlaylist(old(data), id, edit, now), now, written)
    {
      var copy := data;
      var at := FindFirst(copy.playlists, (p: Playlist) => p.id == id);
      if at.None? {
        return Err(NotFound);
      }
      var edited := MutatePlaylist(copy.media, copy.playlists[at.value], edit);
      if edited.Same? {
        return Ok(());
      }
      if edited.Refused? {
        return Err(edited.error);
      }
      copy := copy.(playlists := copy.playlists[at.value := edited.p]);
      if edited.p.fallback != "" {
        if edited.p.fallback == edited.p.id {
          return Err(Invalid);
        }
        var target := FindFirst(copy.playlists, (p: Playlist) => p.id == edited.p.fallback);
        P.ReplacedBothWays(data.playlists, at.value, edited.p);
        assert target.Some? <==> HasPlaylist(copy.playlists, edited.p.fallback);
        if target.None? {
          return Err(NotFound);
        }
      }
      copy := copy.(playlists := copy.playlists[at.value := edited.p.(updatedAt := now)]);
      assert copy.playlists == data.playlists[at.value := edited.p.(updatedAt := now)];
      r := Finish(copy, now, written);
    }

    method AddItem(id: string, media: string, now: int, written: bool) returns (r: Result<(), Fault>)
      modifies this
      ensures (data, r) == Settle(old(data), P.AddItem(old(data), id, media), now, written)
    {
      var copy := data;
      var at := FindFirst(copy.playlists, (p: Playlist) => p.id == id);
      if at.None? {
        return Err(NotFound);
      }
      if media == "" {
        return Err(Invalid);
      }
      var known := FindFirst(copy.media, (m: Media) => m.id == media);
      if known.None? {
        return Err(NotFound);
      }
      var p := copy.playlists[at.value];
      var present := FindFirst(p.items, (x: string) => x == media);
      if present.Some? {
        return Ok(());
      }
      copy := copy.(playlists := copy.playlists[at.value := p.(items := p.items + [media])]);
      r := Finish(copy, now, written);
    }

    method DeletePlaylist(id: string, now: int, written: bool) returns (r: Result<(), Fault>)
      modifies this
      ensures (data, r) == Settle(old(data), P.DeletePlaylist(old(data), id), now, written)
    {
      var copy := data;
      var at := FindFirst(copy.playlists, (p: Playlist) => p.id == id);
      if at.None? {
        return Err(NotFound);
      }
      var played := FindFirst(copy.tasks, (t: Task) => t.config.playlist == id);
      if played.Some? {
        return Err(InUse);
      }
      var fallback := FindFirst(copy.playlists, (p: Playlist) => p.fallback == id);
      if fallback.Some? {
        return Err(InUse);
      }
      copy := copy.(playlists := copy.playlists[..at.value] + copy.playlists[at.value + 1..]);
      r := Finish(copy, now, written);
    }

    // -------------------------------------------------------------- tasks

    method CreateTask(spec: TaskSpec, drawn: string, now: int, written: bool) returns (r: Result<(), Fault>)
      modifies this
      ensures (data, r) == Settle(old(data), T.CreateTask(old(data), spec, drawn, now), now, written)
    {
      var bad := T.CheckSpec(spec);
      if bad.Some? {
        return Err(bad.value);
      }
      var resolved := CheckTaskRefs(data, spec);
      if !resolved {
        return Err(NotFound);
      }
      r := Finish(data.(tasks := data.tasks + [Task(drawn, T.Normalized(spec), now, now)]), now, written);
    }

    /** The fields are overwritten before the references are checked; a failed
        check leaves the copy behind. */
    method ReplaceTask(id: string, spec: TaskSpec, now: int, written: bool) returns (r: Result<(), Fault>)
      modifies this
      ensures (data, r) == Settle(old(data), T.ReplaceTask(old(data), id, spec, now), now, written)
    {
      var bad := T.CheckSpec(spec);
      if bad.Some? {
        return Err(bad.value);
      }
      var copy := data;
      var at := FindFirst(copy.tasks, (t: Task) => t.id == id);
      if at.None? {
        return Err(NotFound);
      }
      var t := copy.tasks[at.value];
      t := t.(config := T.Normalized(spec).(action := t.config.action));
      copy := copy.(tasks := copy.tasks[at.value := t]);
      var resolved := CheckTaskRefs(copy, t.config);
      if !resolved {
        return Err(NotFound);
      }
      copy := copy.(tasks := copy.tasks[at.value := t.(updatedAt := now)]);
      assert copy.tasks == data.tasks[at.value := T.Replaced(data.tasks[at.value], spec, now)];
      r := Finish(copy, now, written);
    }

    method SetEnabled(id: string, enabled: bool, now: int, written: bool) returns (r: Result<(), Fault>)
      modifies this
      ensures (data, r) == Settle(old(data), T.SetEnabled(old(data), id, enabled, now), now, written)
    {
      var copy := data;
      var at := FindFirst(copy.tasks, (t: Task) => t.id == id);
      if at.None? {
        return Err(NotFound);
      }
      var t := copy.tasks[at.value];
      t := t.(config := t.config.(enabled := enabled));
      copy := copy.(tasks := copy.tasks[at.value := t.(updatedAt := now)]);
      r := Finish(copy, now, written);
    }

    method DeleteTask(id: string, now: int, written: bool) returns (r: Result<(), Fault>)
      modifies this
      ensures (data, r) == Settle(old(data), T.DeleteTask(old(data), id), now, written)
    {
      var copy := data;
      var at := FindFirst(copy.tasks, (t: Task) => t.id == id);
      if at.None? {
        return Err(NotFound);
      }
      copy := copy.(tasks := copy.tasks[..at.value] + copy.tasks[at.value + 1..]);
      r := Finish(copy, now, written);
    }

    // -------------------------------------------------------------- suggestions

    method CreateSuggestion(kind: string, title: string, payload: map<string, string>, drawn: string, now: int,
                            written: bool)
      returns (r: Result<(), Fault>)
      modifies this
      ensures (data, r)
        == Settle(old(data), V.CreateSuggestion(old(data), kind, title, payload, drawn, now), now, written)
    {
      if kind != "media_recommend" && kind != "title_generate" {
        return Err(Invalid);
      }
      if payload == map[] {
        return Err(Invalid);
      }
      var s := Suggestion(drawn, kind, title, payload, Pending, "", now, None, now);
      r := Finish(data.(suggestions := data.suggestions + [s]), now, written);
    }

    /** The playlist is appended first and the suggestion decided after it, in
        one update. */
    method Approve(id: string, name: string, drawn: string, now: int, written: bool) returns (r: Result<(), Fault>)
      modifies this
      ensures (data, r) == Settle(old(data), V.Approve(old(data), id, name, drawn, now), now, written)
    {
      var copy := data;
      var at := FindFirst(copy.suggestions, (s: Suggestion) => s.id == id);
      if at.None? {
        return Err(NotFound);
      }
      var s := copy.suggestions[at.value];
      if s.status != Pending || s.payload == map[] {
        return Err(Invalid);
      }
      var media := if V.MEDIA_KEY in s.payload then s.payload[V.MEDIA_KEY] else "";
      if Blank(media) || Blank(name) {
        return Err(Invalid);
      }
      var items := P.SetItemsLoop(copy.media, [media]);
      if items.Err? {
        return Err(items.error);
      }
      copy := copy.(playlists := copy.playlists + [Playlist(drawn, name, "", "", items.value, false, now, now)]);
      s := s.(payload := s.payload[V.PLAYLIST_KEY := drawn]);
      s := s.(status := Applied, appliedAt := Some(now), updatedAt := now);
      copy := copy.(suggestions := copy.suggestions[at.value := s]);
      r := Finish(copy, now, written);
    }

    method Reject(id: string, reason: string, now: int, written: bool) returns (r: Result<(), Fault>)
      modifies this
      ensures (data, r) == Settle(old(data), V.Reject(old(data), id, reason, now), now, written)
    {
      var why := reason;
      if Blank(why) {
        why := "rejected by operator";
      }
      var copy := data;
      var at := FindFirst(copy.suggestions, (s: Suggestion) => s.id == id);
      if at.None? {
        return Err(NotFound);
      }
      var s := copy.suggestions[at.value];
      if s.status != Pending {
        return Err(Invalid);
      }
      s := s.(status := Rejected, reason := why, updatedAt := now);
      copy := copy.(suggestions := copy.suggestions[at.value := s]);
      r := Finish(copy, now, written);
    }

    // -------------------------------------------------------------- snapshots

    /** The first phase of Create: a copy of the document without its history. */
    method BeginCreate(operator: string, description: string, hash: string) returns (c: Capture)
      ensures c == Capture(operator, description, hash, S.Payload(data))
      ensures c.data.media == data.media && c.data.playlists == data.playlists && c.data.tasks == data.tasks
      ensures c.data.suggestions == data.suggestions && c.data.scenes == data.scenes
      ensures c.data.snapshots == [] && c.data.templates == [] && c.data.updatedAt == 0
    {
      var payload := data;
      payload := payload.(snapshots := []);
      payload := payload.(templates := []);
      payload := payload.(updatedAt := NO_TIME);
      c := Capture(operator, description, hash, payload);
    }

    /** The second phase: append, roll, store. */
    method EndCreate(e: R.Entry<Capture>, max: int, now: int, written: bool) returns (r: Result<(), Fault>)
      requires R.Distinct(data.snapshots + [e])
      modifies this
      ensures (data, r) == Settle(old(data), S.StoreSnapshot(old(data), e, max), now, written)
    {
      var rolled := R.RollSnapshots(data.snapshots + [e], max);
      r := Finish(data.(snapshots := rolled), now, written);
    }

    method DeleteSnapshot(id: string, now: int, written: bool) returns (r: Result<(), Fault>)
      modifies this
      ensures (data, r) == Settle(old(data), S.DeleteSnapshot(old(data), id), now, written)
    {
      var copy := data;
      var at := FindFirst(copy.snapshots, (s: R.Entry<Capture>) => s.id == id);
      if at.None? {
        return Err(NotFound);
      }
      copy := copy.(snapshots := copy.snapshots[..at.value] + copy.snapshots[at.value + 1..]);
      r := Finish(copy, now, written);
    }

    /** The first phase of Restore: the payload of the snapshot. */
    method FindForRestore(id: string) returns (r: Result<Data, Fault>)
      ensures r == (match S.FindPayload(data, id) case None => Err(NotFound) case Some(payload) => Ok(payload))
    {
      var at := FindFirst(data.snapshots, (s: R.Entry<Capture>) => s.id == id);
      if at.None? {
        return Err(NotFound);
      }
      return Ok(data.snapshots[at.value].body.data);
    }

    /** The second phase: the history and templates of the moment. */
    method CarryOver(payload: Data, now: int) returns (restored: Data)
      ensures restored == S.CarriedOver(payload, data, now)
    {
      restored := payload.(updatedAt := now);
      restored := restored.(snapshots := data.snapshots);
      restored := restored.(templates := data.templates);
    }

    /** Restore with nothing between its phases, of which Replace is the third. */
    method Restore(id: string, now: int, written: bool) returns (r: Result<(), Fault>)
      modifies this
      ensures S.Restored(old(data), id, now).None? ==> data == old(data) && r == Err(NotFound)
      ensures S.Restored(old(data), id, now).Some? && written ==>
        data == S.Restored(old(data), id, now).value && r == Ok(())
      ensures S.Restored(old(data), id, now).Some? && !written ==> data == old(data) && r == Err(WriteFailed)
    {
      var found := FindForRestore(id);
      if found.Err? {
        return Err(found.error);
      }
      var restored := CarryOver(found.value, now);
      r := Replace(restored, written);
    }
  }

  // ---------------------------------------------------------------- loops

  ghost predicate Indexed(fs: M.Files, media: seq<Media>, byPath: map<string, nat>) {
    forall path :: (path in byPath <==> M.LastAt(fs, media, path).Some?)
                && (path in byPath ==> M.LastAt(fs, media, path) == Some(byPath[path]))
  }

  method PathIndex(fs: M.Files, media: seq<Media>) returns (byPath: map<string, nat>)
    ensures Indexed(fs, media, byPath)
  {
    byPath := map[];
    var i := 0;
    while i < |media|
      invariant 0 <= i <= |media|
      invariant Indexed(fs, media[..i], byPath)
    {
      byPath := byPath[fs.norm(media[i].path) := i];
      AppendKeepsIndex(fs, media[..i], media[i]);
      assert media[..i + 1] == media[..i] + [media[i]];
      i := i + 1;
    }
    assert media[..i] == media;
  }

  /** One turn of Scan's merge loop. */
  method MergeFile(fs: M.Files, media: seq<Media>, byPath: map<string, nat>, f: M.Found, now: int)
    returns (merged: seq<Media>, index: map<string, nat>)
    requires Indexed(fs, media, byPath)
    ensures merged == M.MergeOne(fs, media, f.media, f.drawn, now)
    ensures Indexed(fs, merged, index)
  {
    var path := fs.norm(f.media.path);
    if path in byPath {
      var k := byPath[path];
      var exist := M.Refreshed(media[k], f.media, now);
      RefreshKeepsIndex(fs, media, k, exist, byPath);
      return media[k := exist], byPath;
    }
    var added := f.media.(id := f.drawn, createdAt := now, updatedAt := now);
    AppendKeepsIndex(fs, media, added);
    return media + [added], byPath[path := |media|];
  }

  lemma MergeStep(fs: M.Files, media: seq<Media>, found: seq<M.Found>, now: int)
    ensures found == [] ==> M.Merge(fs, media, found, now) == media
    ensures found != [] ==>
      M.Merge(fs, media, found, now)
      == M.Merge(fs, M.MergeOne(fs, media, found[0].media, found[0].drawn, now), found[1..], now)
  {
  }

  lemma AppendKeepsIndex(fs: M.Files, media: seq<Media>, m: Media)
    ensures forall path :: M.LastAt(fs, media + [m], path)
                        == if fs.norm(m.path) == path then Some(|media|) else M.LastAt(fs, media, path)
  {
    assert (media + [m])[..|media|] == media;
  }

  lemma RefreshKeepsIndex(fs: M.Files, media: seq<Media>, k: nat, m: Media, byPath: map<string, nat>)
    requires k < |media| && m.path == media[k].path
    requires Indexed(fs, media, byPath)
    ensures Indexed(fs, media[k := m], byPath)
  {
    forall path
      ensures M.LastAt(fs, media[k := m], path) == M.LastAt(fs, media, path)
    {
      LastAtByPaths(fs, media[k := m], media, path);
    }
  }

  lemma LastAtByPaths(fs: M.Files, a: seq<Media>, b: seq<Media>, path: string)
    requires |a| == |b| && forall i :: 0 <= i < |a| ==> a[i].path == b[i].path
    ensures M.LastAt(fs, a, path) == M.LastAt(fs, b, path)
  {
  }

  method MutatePlaylist(media: seq<Media>, p: Playlist, edit: P.Edit) returns (r: P.Edited)
    ensures r == P.ApplyEdit(media, p, edit)
  {
    match edit
    case SetFallback(f) => r := P.Changed(p.(fallback := f));
    case SetItems(ids) =>
      var items := P.SetItemsLoop(media, ids);
      r := if items.Err? then P.Refused(items.error) else P.Changed(p.(items := items.value));
    case RemoveItem(id) =>
      var kept := DropItem(p.items, id);
      P.RemovedMembers(p.items, id);
      r := if |kept| == |p.items| then P.Same else P.Changed(p.(items := kept));
    case MoveItem(from, to) =>
      var n := |p.items|;
      if n < 2 {
        return P.Same;
      }
      if from < 0 || from >= n {
        return P.Refused(Invalid);
      }
      var target := if to < 0 then 0 else if to >= n then n - 1 else to;
      if from == target {
        return P.Same;
      }
      var items := new string[n](i requires 0 <= i < n => p.items[i]);
      assert items[..] == p.items;
      P.MoveInPlace(items, from, target);
      r := P.Changed(p.(items := items[..]));
    case ClearItems => r := P.Changed(p.(items := []));
  }

  method DropItem(items: seq<string>, id: string) returns (kept: seq<string>)
    ensures kept == P.Removed(items, id)
  {
    kept := [];
    var i := 0;
    while i < |items|
      invariant 0 <= i <= |items|
      invariant kept == P.Removed(items[..i], id)
    {
      assert items[..i + 1][..i] == items[..i];
      if items[i] != id {
        kept := kept + [items[i]];
      }
      i := i + 1;
    }
    assert items[..i] == items;
  }

  method CheckTaskRefs(d: Data, spec: TaskSpec) returns (ok: bool)
    ensures ok == T.RefsResolve(d, spec)
  {
    if spec.playlist != "" {
      var p := FindFirst(d.playlists, (p: Playlist) => p.id == spec.playlist);
      if p.None? {
        return false;
      }
    }
    if spec.media != "" {
      var m := FindFirst(d.media, (m: Media) => m.id == spec.media);
      if m.None? {
        return false;
      }
    }
    if spec.scene != "" {
      var s := FindFirst(d.scenes, (x: string) => x == spec.scene);
      if s.None? {
        return false;
      }
    }
    return true;
  }
}
