/** What each operation on playlists leaves behind, field by field, and exactly
    when it goes through. */
module PlaylistEffects {
  import opened Wrappers
  import opened Strings
  import opened Documents
  import opened Playlists
  import R = Retention

  // ---------------------------------------------------------------- item lists

  /** The ids as setPlaylistItems reads them. */
  function Trimmed(ids: seq<string>): (r: seq<string>)
    ensures |r| == |ids| && forall k :: 0 <= k < |ids| ==> r[k] == Trim(ids[k])
  {
    seq(|ids|, k requires 0 <= k < |ids| => Trim(ids[k]))
  }

  predicate AllKnown(media: seq<Media>, ids: seq<string>) {
    forall k :: 0 <= k < |ids| && Trim(ids[k]) != "" ==> HasMedia(media, Trim(ids[k]))
  }

  /** A list is accepted exactly if every id that is not blank is known; the items are
      those ids, trimmed, in the order given. */
  lemma {:induction false} PickedInOrder(media: seq<Media>, ids: seq<string>)
    ensures PickItems(media, ids).Ok? <==> AllKnown(media, ids)
    ensures PickItems(media, ids).Ok? ==> PickItems(media, ids).value == R.Filter(Trimmed(ids), (x: string) => x != "")
  {
    PickRefusal(media, ids);
    if ids != [] {
      var last := |ids| - 1;
      PickedInOrder(media, ids[..last]);
      assert Trimmed(ids)[..last] == Trimmed(ids[..last]);
    }
  }

  /** Removing an item keeps exactly the others, in order. */
  lemma {:induction false} RemovedInOrder(items: seq<string>, id: string)
    ensures Removed(items, id) == R.Filter(items, (x: string) => x != id)
  {
    if items != [] {
      RemovedInOrder(items[..|items| - 1], id);
    }
  }

  // ---------------------------------------------------------------- edits

  /** The edit's own conditions. */
  ghost predicate Accepted(d: Data, p: Playlist, e: Edit) {
    match e
    case SetFallback(f) => f == "" || (f != p.id && HasPlaylist(d.playlists, f))
    case SetItems(ids) => AllKnown(d.media, ids)
    case RemoveItem(id) => id in p.items
    case MoveItem(from, to) =>
      var n := |p.items|;
      n >= 2 && 0 <= from < n && from != (if to < 0 then 0 else if to >= n then n - 1 else to)
    case ClearItems => true
  }

  /** The items an accepted edit leaves. */
  ghost predicate ItemsAfter(was: seq<string>, e: Edit, items: seq<string>) {
    match e
    case SetFallback(_) => items == was
    case SetItems(ids) => items == R.Filter(Trimmed(ids), (x: string) => x != "")
    case RemoveItem(id) => items == R.Filter(was, (x: string) => x != id)
    case MoveItem(from, to) =>
      var target := if to < 0 then 0 else if to >= |was| then |was| - 1 else to;
      && 0 <= from < |was| && target < |items| == |was| && items[target] == was[from]
      && items[..target] + items[target + 1..] == was[..from] + was[from + 1..]
    case ClearItems => items == []
  }

  lemma AppliedIs(d: Data, p: Playlist, e: Edit)
    requires PlaylistRefs(d.media, d.playlists, p)
    ensures var r := ApplyEdit(d.media, p, e);
            Accepted(d, p, e) <==> r.Changed? && CheckFallback(d.playlists, r.p).None?
    ensures var r := ApplyEdit(d.media, p, e);
            r.Changed? ==>
              && r.p == p.(items := r.p.items, fallback := if e.SetFallback? then e.fallback else p.fallback)
              && ItemsAfter(p.items, e, r.p.items)
  {
    hide HasMedia, HasPlaylist, R.Filter, Moved, Removed;
    match e
    case SetItems(ids) => PickedInOrder(d.media, ids);
    case RemoveItem(id) => RemovedInOrder(p.items, id);
    case MoveItem(from, to) =>
      if 0 <= from < |p.items| {
        MoveProperties(p.items, from, Clamp(to, |p.items|));
      }
    case _ =>
  }

  /** An edit of an existing playlist of a sound document goes through exactly under its
      own conditions; only items, fallback and update time of that playlist change. */
  lemma EditMeans(d: Data, id: string, e: Edit, now: int, i: nat)
    requires Refs(d) && First(d.playlists, (p: Playlist) => p.id == id) == Some(i)
    ensures var was := d.playlists[i];
            var o := EditPlaylist(d, id, e, now);
            && (o.Commit? <==> Accepted(d, was, e))
            && (o.Commit? ==>
                  && |o.doc.playlists| == |d.playlists|
                  && var p := o.doc.playlists[i];
                     && o.doc == d.(playlists := d.playlists[i := p])
                     && p == was.(items := p.items, updatedAt := now,
                                  fallback := if e.SetFallback? then e.fallback else was.fallback)
                     && ItemsAfter(was.items, e, p.items))
  {
    assert PlaylistRefs(d.media, d.playlists, d.playlists[i]);
    AppliedIs(d, d.playlists[i], e);
    hide ApplyEdit, Accepted, ItemsAfter, CheckFallback;
  }

  /** One more item at the end, of an existing media not listed yet; nothing else
      changes, not even the update time. */
  lemma AddItemMeans(d: Data, id: string, media: string, i: nat)
    requires First(d.playlists, (p: Playlist) => p.id == id) == Some(i)
    ensures var was := d.playlists[i];
            var o := AddItem(d, id, media);
            && (o.Commit? <==> media != "" && HasMedia(d.media, media) && media !in was.items)
            && (o.Noop? <==> media != "" && HasMedia(d.media, media) && media in was.items)
            && (o == Fail(Invalid) <==> media == "")
            && (o.Commit? ==> o.doc == d.(playlists := d.playlists[i := was.(items := was.items + [media])]))
  {
  }

  /** A new playlist stands at the end, with what it was created with and no
      fallback. */
  lemma CreateMeans(d: Data, name: string, desc: string, ids: seq<string>, loop: bool, drawn: string, now: int)
    ensures var o := CreatePlaylist(d, name, desc, ids, loop, drawn, now);
            && (o.Commit? <==> !Blank(name) && AllKnown(d.media, ids))
            && (o.Commit? ==>
                  && |o.doc.playlists| == |d.playlists| + 1 && o.doc == d.(playlists := o.doc.playlists)
                  && o.doc.playlists[..|d.playlists|] == d.playlists
                  && var p := o.doc.playlists[|d.playlists|];
                     && p.id == drawn && p.name == name && p.desc == desc && p.loop == loop && p.fallback == ""
                     && p.createdAt == now && p.updatedAt == now
                     && p.items == R.Filter(Trimmed(ids), (x: string) => x != ""))
  {
    hide Blank, HasMedia, R.Filter, PickItems;
    PickedInOrder(d.media, ids);
  }

  /** The playlist with the id goes, and only that one. */
  lemma DeleteMeans(d: Data, id: string)
    ensures var o := DeletePlaylist(d, id);
            && (o == Fail(NotFound) <==> !HasPlaylist(d.playlists, id))
            && (o.Commit? ==> exists i: nat ::
                  i < |d.playlists| && d.playlists[i].id == id
                  && o.doc == d.(playlists := d.playlists[..i] + d.playlists[i + 1..]))
  {
  }
}
