/** Playlists: item lists, moves in place, guarded deletion and the resolution
    of fallback chains. */
module Playlists {
  import opened Wrappers
  import opened Strings
  import opened Sequences
  import opened Documents

  // ---------------------------------------------------------------- item lists

  /** setPlaylistItems: trimmed, empty ids skipped, every other id must exist. */
  function PickItems(media: seq<Media>, ids: seq<string>): Result<seq<string>, Fault> {
    if ids == [] then Ok([]) else
    var last := |ids| - 1;
    var front := PickItems(media, ids[..last]);
    var id := Trim(ids[last]);
    if front.Err? || id == "" then front
    else if !HasMedia(media, id) then Err(NotFound)
    else Ok(front.value + [id])
  }

  lemma {:induction false} PickedExist(media: seq<Media>, ids: seq<string>)
    ensures var r := PickItems(media, ids);
            r.Ok? ==> forall k :: 0 <= k < |r.value| ==> HasMedia(media, r.value[k])
  {
    if ids != [] {
      PickedExist(media, ids[..|ids| - 1]);
    }
  }

  /** A batch is refused exactly when some non-blank id is unknown. */
  lemma {:induction false} PickRefusal(media: seq<Media>, ids: seq<string>)
    ensures PickItems(media, ids).Err? <==>
      exists k :: 0 <= k < |ids| && Trim(ids[k]) != "" && !HasMedia(media, Trim(ids[k]))
  {
    if ids != [] {
      var last := |ids| - 1;
      PickRefusal(media, ids[..last]);
      assert forall k :: 0 <= k < last ==> ids[..last][k] == ids[k];
    }
  }

  method SetItemsLoop(media: seq<Media>, ids: seq<string>) returns (r: Result<seq<string>, Fault>)
    ensures r.Ok? ==> r == PickItems(media, ids)
    ensures r.Err? ==> PickItems(media, ids).Err? && r.error == NotFound
  {
    var items := [];
    var i := 0;
    while i < |ids|
      invariant 0 <= i <= |ids|
      invariant PickItems(media, ids[..i]) == Ok(items)
    {
      var id := Trim(ids[i]);
      assert ids[..i + 1][..i] == ids[..i];
      if id != "" {
        var at := FindFirst(media, (m: Media) => m.id == id);
        if at.None? {
          assert !HasMedia(media, id);
          PickRefusal(media, ids);
          return Err(NotFound);
        }
        assert HasMedia(media, id);
        items := items + [id];
      }
      i := i + 1;
    }
    assert ids[..i] == ids;
    return Ok(items);
  }

  function Removed(items: seq<string>, id: string): seq<string> {
    if items == [] then [] else
    var k := |items| - 1;
    Removed(items[..k], id) + if items[k] == id then [] else [items[k]]
  }

  lemma {:induction false} RemovedMembers(items: seq<string>, id: string)
    ensures id !in Removed(items, id)
    ensures forall x :: x in Removed(items, id) ==> x in items
    ensures |Removed(items, id)| <= |items|
    ensures id in items ==> |Removed(items, id)| < |items|
    ensures id !in items ==> Removed(items, id) == items
  {
    if items != [] {
      var k := |items| - 1;
      RemovedMembers(items[..k], id);
      assert items == items[..k] + [items[k]];
    }
  }

  /** Every other item keeps all its occurrences. */
  lemma {:induction false} RemovedKeepsOthers(items: seq<string>, id: string, x: string)
    requires x != id
    ensures multiset(Removed(items, id))[x] == multiset(items)[x]
  {
    if items != [] {
      var k := |items| - 1;
      RemovedKeepsOthers(items[..k], id, x);
      assert items == items[..k] + [items[k]];
    }
  }

  // ---------------------------------------------------------------- moving an item

  /** The element taken out of `from` and put back in at `to`. */
  function Moved<T>(s: seq<T>, from: nat, to: nat): (r: seq<T>)
    requires from < |s| && to < |s|
  {
    var rest := Without(s, from);
    rest[..to] + [s[from]] + rest[to..]
  }

  /** A move puts the element at `to`, keeps the others in order, and is undone
      by the reverse move. */
  lemma MoveProperties<T>(s: seq<T>, from: nat, to: nat)
    requires from < |s| && to < |s|
    ensures |Moved(s, from, to)| == |s| && Moved(s, from, to)[to] == s[from]
    ensures Without(Moved(s, from, to), to) == Without(s, from)
    ensures Moved(Moved(s, from, to), to, from) == s
  {
    var rest := Without(s, from);
    var m := Moved(s, from, to);
    assert s == s[..from] + [s[from]] + s[from + 1..];
    assert rest == rest[..to] + rest[to..];
    assert Without(m, to) == rest by {
      assert m[..to] == rest[..to] && m[to + 1..] == rest[to..];
    }
    assert rest[..from] == s[..from] && rest[from..] == s[from + 1..];
    assert Moved(m, to, from) == rest[..from] + [m[to]] + rest[from..];
  }

  lemma PutBack<T>(a: seq<T>, x: T, b: seq<T>)
    ensures multiset(a + [x] + b) == multiset(a + b) + multiset{x}
  {
  }

  lemma MovePermutes<T>(s: seq<T>, from: nat, to: nat)
    requires from < |s| && to < |s|
    ensures multiset(Moved(s, from, to)) == multiset(s)
  {
    var rest := Without(s, from);
    PutBack(s[..from], s[from], s[from + 1..]);
    PutBack(rest[..to], s[from], rest[to..]);
    assert s == s[..from] + [s[from]] + s[from + 1..];
    assert rest == rest[..to] + rest[to..];
  }

  /** The two copies of MoveItem: close the gap, then open one at `to`. */
  method MoveInPlace<T>(a: array<T>, from: nat, to: nat)
    requires from < a.Length && to < a.Length
    modifies a
    ensures a[..] == Moved(old(a[..]), from, to)
  {
    hide Moved, Without;
    ghost var s := a[..];
    var item := a[from];
    CloseGap(a, from);
    ghost var rest := a[..a.Length - 1];
    OpenGap(a, to);
    a[to] := item;
    MovedIs(s, from, to, rest, a[..]);
  }

  method CloseGap<T>(a: array<T>, from: nat)
    requires from < a.Length
    modifies a
    ensures forall k :: 0 <= k < a.Length - 1 ==> a[k] == old(a[if k < from then k else k + 1])
  {
    var i := from;
    while i + 1 < a.Length
      invariant from <= i < a.Length
      invariant forall k :: 0 <= k < i ==> a[k] == old(a[if k < from then k else k + 1])
      invariant forall k :: i < k < a.Length ==> a[k] == old(a[k])
    {
      a[i] := a[i + 1];
      i := i + 1;
    }
  }

  method OpenGap<T>(a: array<T>, to: nat)
    requires to < a.Length
    modifies a
    ensures forall k :: 0 <= k < to ==> a[k] == old(a[k])
    ensures forall k :: to < k < a.Length ==> a[k] == old(a[k - 1])
  {
    var i := a.Length - 1;
    while i > to
      invariant to <= i < a.Length
      invariant forall k :: 0 <= k <= i && k < a.Length - 1 ==> a[k] == old(a[k])
      invariant forall k :: i < k < a.Length ==> a[k] == old(a[k - 1])
    {
      a[i] := a[i - 1];
      i := i - 1;
    }
  }

  lemma MovedIs<T>(s: seq<T>, from: nat, to: nat, rest: seq<T>, m: seq<T>)
    requires from < |s| && to < |s| && |rest| == |s| - 1 && |m| == |s|
    requires forall k :: 0 <= k < |rest| ==> rest[k] == s[if k < from then k else k + 1]
    requires m[to] == s[from]
    requires forall k :: 0 <= k < to ==> m[k] == rest[k]
    requires forall k :: to < k < |m| ==> m[k] == rest[k - 1]
    ensures m == Moved(s, from, to)
  {
    assert rest == Without(s, from);
  }

  // ---------------------------------------------------------------- edits of one playlist

  /** The callbacks the service passes to its own Update, and SetItems. */
  datatype Edit =
    | SetFallback(fallback: string)
    | SetItems(ids: seq<string>)
    | RemoveItem(id: string)
    | MoveItem(from: int, to: int)
    | ClearItems

  datatype Edited = Changed(p: Playlist) | Same | Refused(error: Fault)

  function Clamp(to: int, n: nat): nat
    requires n > 0
  {
    if to < 0 then 0 else if to >= n then n - 1 else to
  }

  function ApplyEdit(media: seq<Media>, p: Playlist, e: Edit): Edited {
    match e
    case SetFallback(f) => Changed(p.(fallback := f))
    case SetItems(ids) =>
      (match PickItems(media, ids) case Err(_) => Refused(NotFound) case Ok(items) => Changed(p.(items := items)))
    case RemoveItem(id) => if id in p.items then Changed(p.(items := Removed(p.items, id))) else Same
    case MoveItem(from, to) =>
      var n := |p.items|;
      if n < 2 then Same
      else if from < 0 || from >= n then Refused(Invalid)
      else if from == Clamp(to, n) then Same
      else Changed(p.(items := Moved(p.items, from, Clamp(to, n))))
    case ClearItems => Changed(p.(items := []))
  }

  /** validateFallbackRef. */
  function CheckFallback(playlists: seq<Playlist>, p: Playlist): Option<Fault> {
    if p.fallback == "" then None
    else if p.fallback == p.id then Some(Invalid)
    else if HasPlaylist(playlists, p.fallback) then None
    else Some(NotFound)
  }

  function EditPlaylist(d: Data, id: string, e: Edit, now: int): Outcome {
    match First(d.playlists, (p: Playlist) => p.id == id)
    case None => Fail(NotFound)
    case Some(i) =>
      match ApplyEdit(d.media, d.playlists[i], e)
      case Same => Noop
      case Refused(f) => Fail(f)
      case Changed(p) =>
        match CheckFallback(d.playlists, p)
        case Some(f) => Fail(f)
        case None => Commit(d.(playlists := d.playlists[i := p.(updatedAt := now)]))
  }

  function CreatePlaylist(d: Data, name: string, desc: string, ids: seq<string>, loop: bool, drawn: string, now: int)
    : Outcome
  {
    if Blank(name) then Fail(Invalid) else
    match PickItems(d.media, ids)
    case Err(_) => Fail(NotFound)
    case Ok(items) => Commit(d.(playlists := d.playlists + [Playlist(drawn, name, desc, "", items, loop, now, now)]))
  }

  function AddItem(d: Data, id: string, media: string): Outcome {
    match First(d.playlists, (p: Playlist) => p.id == id)
    case None => Fail(NotFound)
    case Some(i) =>
      var p := d.playlists[i];
      if media == "" then Fail(Invalid)
      else if !HasMedia(d.media, media) then Fail(NotFound)
      else if media in p.items then Noop
      else Commit(d.(playlists := d.playlists[i := p.(items := p.items + [media])]))
  }

  function DeletePlaylist(d: Data, id: string): Outcome {
    match First(d.playlists, (p: Playlist) => p.id == id)
    case None => Fail(NotFound)
    case Some(i) => if PlaylistUsed(d, id) then Fail(InUse) else Commit(d.(playlists := Without(d.playlists, i)))
  }

  // ---------------------------------------------------------------- what they keep

  lemma ReplacedKeepsIds(playlists: seq<Playlist>, i: nat, p: Playlist)
    requires i < |playlists| && p.id == playlists[i].id
    ensures PlaylistsKept(playlists, playlists[i := p])
  {
    forall id | HasPlaylist(playlists, id)
      ensures HasPlaylist(playlists[i := p], id)
    {
      var k :| 0 <= k < |playlists| && playlists[k].id == id;
      assert playlists[i := p][k].id == id;
    }
  }

  lemma ReplaceKeepsRefs(d: Data, i: nat, p: Playlist)
    requires Refs(d) && i < |d.playlists| && p.id == d.playlists[i].id && PlaylistRefs(d.media, d.playlists, p)
    ensures Refs(d.(playlists := d.playlists[i := p]))
  {
    ReplacedKeepsIds(d.playlists, i, p);
  }

  /** Every edit but SetItems leaves items of the playlist only. */
  lemma EditedFrom(media: seq<Media>, was: Playlist, e: Edit, x: string)
    requires ApplyEdit(media, was, e).Changed? && !e.SetItems?
    requires x in ApplyEdit(media, was, e).p.items
    ensures x in was.items
  {
    if e.RemoveItem? {
      RemovedMembers(was.items, e.id);
    } else if e.MoveItem? {
      var target := Clamp(e.to, |was.items|);
      MovePermutes(was.items, e.from, target);
      assert x in multiset(Moved(was.items, e.from, target));
    }
  }

  /** Whatever the edit, the items of the changed playlist exist. */
  lemma EditedItemsExist(media: seq<Media>, was: Playlist, e: Edit, p: Playlist)
    requires ApplyEdit(media, was, e) == Changed(p)
    requires forall k :: 0 <= k < |was.items| ==> HasMedia(media, was.items[k])
    ensures p.id == was.id && forall k :: 0 <= k < |p.items| ==> HasMedia(media, p.items[k])
  {
    hide HasMedia, PickItems, Removed, Moved;
    if e.SetItems? {
      PickedExist(media, e.ids);
      assert PickItems(media, e.ids) == Ok(p.items);
    } else {
      forall x | x in p.items
        ensures x in was.items
      {
        EditedFrom(media, was, e, x);
      }
      SubItemsExist(media, was.items, p.items);
    }
  }

  lemma SubItemsExist(media: seq<Media>, items: seq<string>, part: seq<string>)
    requires forall k :: 0 <= k < |items| ==> HasMedia(media, items[k])
    requires forall x :: x in part ==> x in items
    ensures forall k :: 0 <= k < |part| ==> HasMedia(media, part[k])
  {
    hide HasMedia;
    forall k | 0 <= k < |part|
      ensures HasMedia(media, part[k])
    {
      assert part[k] in items;
    }
  }

  lemma EditKeepsRefs(d: Data, id: string, e: Edit, now: int)
    requires Refs(d) && EditPlaylist(d, id, e, now).Commit?
    ensures Refs(EditPlaylist(d, id, e, now).doc)
  {
    var i := First(d.playlists, (p: Playlist) => p.id == id).value;
    var was := d.playlists[i];
    assert PlaylistRefs(d.media, d.playlists, was);
    var p := ApplyEdit(d.media, was, e).p;
    EditedItemsExist(d.media, was, e, p);
    hide ApplyEdit, HasMedia, HasPlaylist;
    assert CheckFallback(d.playlists, p).None?;
    assert PlaylistRefs(d.media, d.playlists, p.(updatedAt := now));
    ReplaceKeepsRefs(d, i, p.(updatedAt := now));
  }

  lemma AppendKeepsRefs(d: Data, p: Playlist)
    requires Refs(d) && PlaylistRefs(d.media, d.playlists, p)
    ensures Refs(d.(playlists := d.playlists + [p]))
  {
    var after := d.playlists + [p];
    forall id | HasPlaylist(d.playlists, id)
      ensures HasPlaylist(after, id)
    {
      var k :| 0 <= k < |d.playlists| && d.playlists[k].id == id;
      assert after[k].id == id;
    }
  }

  lemma CreateKeepsRefs(d: Data, name: string, desc: string, ids: seq<string>, loop: bool, drawn: string, now: int)
    requires Refs(d) && CreatePlaylist(d, name, desc, ids, loop, drawn, now).Commit?
    ensures Refs(CreatePlaylist(d, name, desc, ids, loop, drawn, now).doc)
  {
    hide HasMedia, HasPlaylist, PickItems, Refs;
    PickedExist(d.media, ids);
    var items := PickItems(d.media, ids).value;
    var p := Playlist(drawn, name, desc, "", items, loop, now, now);
    assert p.items == items && PlaylistRefs(d.media, d.playlists, p);
    AppendKeepsRefs(d, p);
  }

  lemma AddItemKeepsRefs(d: Data, id: string, media: string)
    requires Refs(d) && AddItem(d, id, media).Commit?
    ensures Refs(AddItem(d, id, media).doc)
  {
    var i := First(d.playlists, (p: Playlist) => p.id == id).value;
    var p := d.playlists[i];
    assert PlaylistRefs(d.media, d.playlists, p);
    ReplaceKeepsRefs(d, i, p.(items := p.items + [media]));
  }

  lemma DeletedKeepsOthers(playlists: seq<Playlist>, i: nat)
    requires i < |playlists|
    ensures forall id :: id != playlists[i].id && HasPlaylist(playlists, id) ==> HasPlaylist(Without(playlists, i), id)
  {
    var after := Without(playlists, i);
    forall id | id != playlists[i].id && HasPlaylist(playlists, id)
      ensures HasPlaylist(after, id)
    {
      var k :| 0 <= k < |playlists| && playlists[k].id == id;
      assert after[if k < i then k else k - 1] == playlists[k];
    }
  }

  lemma DeleteKeepsRefs(d: Data, id: string)
    requires Refs(d) && DeletePlaylist(d, id).Commit?
    ensures Refs(DeletePlaylist(d, id).doc)
  {
    var i := First(d.playlists, (p: Playlist) => p.id == id).value;
    var after := Without(d.playlists, i);
    DeletedKeepsOthers(d.playlists, i);
    forall k | 0 <= k < |after|
      ensures PlaylistRefs(d.media, after, after[k])
    {
      var w := if k < i then k else k + 1;
      assert after[k] == d.playlists[w];
      assert PlaylistRefs(d.media, d.playlists, d.playlists[w]);
    }
  }

  /** The guard refuses exactly the deletions that would leave a dangling
      reference, when ids are unique. */
  lemma DeleteGuardIsExact(d: Data, id: string, i: nat)
    requires Refs(d) && id != "" && i < |d.playlists| && d.playlists[i].id == id
    requires forall j, k :: 0 <= j < k < |d.playlists| ==> d.playlists[j].id != d.playlists[k].id
    ensures DeletePlaylist(d, id) == Fail(InUse) <==> !Refs(d.(playlists := Without(d.playlists, i)))
  {
    assert First(d.playlists, (p: Playlist) => p.id == id) == Some(i);
    var after := d.(playlists := Without(d.playlists, i));
    assert forall k :: 0 <= k < |after.playlists| ==> after.playlists[k] == d.playlists[if k < i then k else k + 1];
    if PlaylistUsed(d, id) {
      assert !HasPlaylist(after.playlists, id);
      if t :| 0 <= t < |d.tasks| && d.tasks[t].config.playlist == id {
        assert !TaskRefs(after.media, after.playlists, after.tasks[t]);
      } else {
        var k :| 0 <= k < |d.playlists| && d.playlists[k].fallback == id;
        assert PlaylistRefs(d.media, d.playlists, d.playlists[k]);
        assert k != i;
        var w := if k < i then k else k - 1;
        assert !PlaylistRefs(after.media, after.playlists, after.playlists[w]);
      }
    } else {
      DeleteKeepsRefs(d, id);
    }
  }

  // ---------------------------------------------------------------- operations after operations

  lemma FirstUnmoved(playlists: seq<Playlist>, id: string, i: nat, p: Playlist)
    requires First(playlists, (q: Playlist) => q.id == id) == Some(i) && p.id == id
    ensures First(playlists[i := p], (q: Playlist) => q.id == id) == Some(i)
  {
    var after := playlists[i := p];
    var r := First(after, (q: Playlist) => q.id == id);
    assert after[i].id == id;
    assert forall k :: 0 <= k < i ==> after[k] == playlists[k] && after[k].id != id;
    assert r.Some? && r.value <= i;
  }

  /** Adding an item that was just added is a no-op. */
  lemma AddItemIdempotent(d: Data, id: string, media: string, after: Data)
    requires AddItem(d, id, media) == Commit(after)
    ensures AddItem(after, id, media) == Noop
  {
    var i := First(d.playlists, (p: Playlist) => p.id == id).value;
    var items := d.playlists[i].items + [media];
    assert items[|items| - 1] == media;
    FirstUnmoved(d.playlists, id, i, d.playlists[i].(items := items));
    assert after.playlists[i].items == items;
  }

  /** Removing an item that was just removed is a no-op. */
  lemma RemoveItemIdempotent(d: Data, id: string, media: string, now: int, later: int, after: Data)
    requires EditPlaylist(d, id, RemoveItem(media), now) == Commit(after)
    ensures EditPlaylist(after, id, RemoveItem(media), later) == Noop
  {
    var i := First(d.playlists, (p: Playlist) => p.id == id).value;
    var p := d.playlists[i];
    RemovedMembers(p.items, media);
    FirstUnmoved(d.playlists, id, i, p.(items := Removed(p.items, media), updatedAt := now));
  }

  /** A move from outside a list of two or more is refused, not clamped, and a
      move is refused for nothing else; a shorter list makes any move a no-op. */
  lemma MoveRefusedIff(d: Data, id: string, from: int, to: int, now: int, i: nat)
    requires Refs(d) && First(d.playlists, (p: Playlist) => p.id == id) == Some(i)
    ensures var n := |d.playlists[i].items|;
            var o := EditPlaylist(d, id, MoveItem(from, to), now);
            && (o.Fail? <==> n >= 2 && !(0 <= from < n))
            && (o.Fail? ==> o.error == Invalid)
            && (o.Noop? <==> n < 2 || from == Clamp(to, n))
  {
    hide Moved;
    assert PlaylistRefs(d.media, d.playlists, d.playlists[i]);
  }

  /** A move that changed the order is undone by the move back. */
  lemma MoveItemBack(d: Data, id: string, from: int, to: int, now: int, later: int, i: nat)
    requires First(d.playlists, (p: Playlist) => p.id == id) == Some(i)
    requires EditPlaylist(d, id, MoveItem(from, to), now).Commit?
    ensures var moved := EditPlaylist(d, id, MoveItem(from, to), now).doc;
            EditPlaylist(moved, id, MoveItem(Clamp(to, |d.playlists[i].items|), from), later)
            == Commit(d.(playlists := d.playlists[i := d.playlists[i].(updatedAt := later)]))
  {
    var p := d.playlists[i];
    var target := Clamp(to, |p.items|);
    MoveProperties(p.items, from, target);
    var q := p.(items := Moved(p.items, from, target), updatedAt := now);
    FirstUnmoved(d.playlists, id, i, q);
    ReplacedBothWays(d.playlists, i, q);
    hide Moved;
    assert d.playlists[i := q][i := p.(updatedAt := later)] == d.playlists[i := p.(updatedAt := later)];
  }

  lemma ReplacedBothWays(playlists: seq<Playlist>, i: nat, p: Playlist)
    requires i < |playlists| && p.id == playlists[i].id
    ensures forall id :: HasPlaylist(playlists[i := p], id) <==> HasPlaylist(playlists, id)
  {
    ReplacedKeepsIds(playlists, i, p);
    ReplacedKeepsIds(playlists[i := p], i, playlists[i]);
    assert playlists[i := p][i := playlists[i]] == playlists;
  }
}
