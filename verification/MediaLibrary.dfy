/** The media collection: registering files, merging a directory scan, guarded
    deletion. */
module MediaLibrary {
  import opened Wrappers
  import opened Strings
  import opened Sequences
  import opened Documents

  // ---------------------------------------------------------------- files

  datatype Stat = Stat(isDir: bool, size: int, modTime: int)

  /** The path functions and the file system as seen during one call. */
  datatype Files = Files(
    clean: string -> string, norm: string -> string, base: string -> string, ext: string -> string,
    stat: string -> Option<Stat>)

  predicate KnownOrder(sortBy: string) {
    sortBy in {"", "name", "time", "random"}
  }

  // ---------------------------------------------------------------- registering

  /** One entry of a batch (or a nil pointer) and the id drawn for it. */
  datatype Given = Given(media: Option<Media>, drawn: string)

  /** One file a scan found and the id drawn for it. */
  datatype Found = Found(media: Media, drawn: string)

  /** validateMedia and the completion of the generated fields; `drawn` is the
      id drawn when the caller gave none. */
  function Prepare(fs: Files, item: Option<Media>, drawn: string, now: int): Result<Media, Fault> {
    if item.None? || Blank(item.value.path) then Err(Invalid) else
    var m := item.value;
    var given := fs.stat(m.path);
    var named := if m.name == "" then m.(name := fs.base(m.path)) else m;
    var kinded :=
      if given.Some? && given.value.isDir
      then named.(isDir := true, sortBy := if named.sortBy == "" then "name" else named.sortBy)
      else named;
    if !KnownOrder(kinded.sortBy) then Err(Invalid) else
    var cleaned := kinded.(path := fs.clean(m.path));
    Ok(Complete(fs, cleaned, drawn, now))
  }

  function Complete(fs: Files, m: Media, drawn: string, now: int): Media {
    var found := fs.stat(m.path);
    var sized :=
      if (m.modTime == NO_TIME || m.size == 0) && found.Some?
      then m.(size := found.value.size, modTime := found.value.modTime)
      else m;
    sized.(
      id := if m.id == "" then drawn else m.id,
      ext := if m.ext == "" then fs.ext(m.path) else m.ext,
      modTime := if sized.modTime == NO_TIME then now else sized.modTime,
      name := if m.name == "" then fs.base(m.path) else m.name,
      createdAt := now,
      updatedAt := now)
  }

  predicate PathTaken(fs: Files, media: seq<Media>, path: string) {
    exists i :: 0 <= i < |media| && fs.norm(media[i].path) == fs.norm(path)
  }

  /** The batch, entry by entry; the first bad entry refuses all of it. */
  function Register(fs: Files, media: seq<Media>, items: seq<Given>, now: int): Result<seq<Media>, Fault>
    decreases |items|
  {
    if items == [] then Ok(media) else
    match Prepare(fs, items[0].media, items[0].drawn, now)
    case Err(e) => Err(e)
    case Ok(m) =>
      if PathTaken(fs, media, m.path) then Err(Exists)
      else Register(fs, media + [m], items[1..], now)
  }

  function AddMedia(fs: Files, d: Data, items: seq<Given>, now: int): Outcome {
    match Register(fs, d.media, items, now)
    case Err(e) => Fail(e)
    case Ok(media) => Commit(d.(media := media))
  }

  // ---------------------------------------------------------------- scanning

  function Refreshed(exist: Media, m: Media, now: int): Media {
    var listed := exist.(name := m.name, ext := m.ext, size := m.size, modTime := m.modTime, updatedAt := now);
    if m.probed
    then listed.(duration := m.duration, width := m.width, height := m.height, bitrate := m.bitrate, probed := true)
    else listed
  }

  /** The entry byPath leads to: the last one with this path. */
  function LastAt(fs: Files, media: seq<Media>, path: string): (r: Option<nat>)
    ensures r.None? <==> forall i :: 0 <= i < |media| ==> fs.norm(media[i].path) != path
    ensures r.Some? ==> r.value < |media| && fs.norm(media[r.value].path) == path
    ensures r.Some? ==> forall i :: r.value < i < |media| ==> fs.norm(media[i].path) != path
  {
    if media == [] then None else
    var k := |media| - 1;
    if fs.norm(media[k].path) == path then Some(k) else LastAt(fs, media[..k], path)
  }

  /** One found file merged into the library. */
  function MergeOne(fs: Files, media: seq<Media>, m: Media, drawn: string, now: int): seq<Media> {
    match LastAt(fs, media, fs.norm(m.path))
    case Some(i) => media[i := Refreshed(media[i], m, now)]
    case None => media + [m.(id := drawn, createdAt := now, updatedAt := now)]
  }

  function Merge(fs: Files, media: seq<Media>, found: seq<Found>, now: int): seq<Media>
    decreases |found|
  {
    if found == [] then media
    else Merge(fs, MergeOne(fs, media, found[0].media, found[0].drawn, now), found[1..], now)
  }

  function ScanMedia(fs: Files, d: Data, found: seq<Found>, now: int): Outcome {
    Commit(d.(media := Merge(fs, d.media, found, now)))
  }

  // ---------------------------------------------------------------- deleting

  function DeleteMedia(d: Data, id: string): Outcome {
    match First(d.media, (m: Media) => m.id == id)
    case None => Fail(NotFound)
    case Some(i) => if MediaUsed(d, id) then Fail(InUse) else Commit(d.(media := Without(d.media, i)))
  }

  // ---------------------------------------------------------------- what they keep

  /** No two entries name the same file. */
  ghost predicate PathsDistinct(fs: Files, media: seq<Media>) {
    forall i, j :: 0 <= i < j < |media| ==> fs.norm(media[i].path) != fs.norm(media[j].path)
  }

  /** What is registered for one given entry: refused for a blank path or an unknown
      order; what the caller gave is kept, and what is missing comes from the file,
      the path and the clock. */
  lemma PrepareMeans(fs: Files, g: Media, drawn: string, now: int)
    ensures var r := Prepare(fs, Some(g), drawn, now);
            r.Ok? <==> !Blank(g.path) && g.sortBy in {"", "name", "time", "random"}
    ensures var r := Prepare(fs, Some(g), drawn, now);
            r.Ok? ==>
              var m := r.value;
              var dir := fs.stat(g.path).Some? && fs.stat(g.path).value.isDir;
              && m.path == fs.clean(g.path) && m.id == (if g.id == "" then drawn else g.id)
              && m.createdAt == now && m.updatedAt == now
              && m.name == (if g.name != "" then g.name
                            else if fs.base(g.path) != "" then fs.base(g.path) else fs.base(m.path))
              && m.ext == (if g.ext == "" then fs.ext(m.path) else g.ext)
              && m.isDir == (g.isDir || dir) && m.sortBy == (if g.sortBy == "" && dir then "name" else g.sortBy)
              && m.probed == g.probed && m.duration == g.duration && m.bitrate == g.bitrate
              && m.width == g.width && m.height == g.height
              && (if (g.modTime != 0 && g.size != 0) || fs.stat(m.path).None?
                  then m.size == g.size && m.modTime == (if g.modTime == 0 then now else g.modTime)
                  else m.size == fs.stat(m.path).value.size
                       && (fs.stat(m.path).value.modTime != 0 ==> m.modTime == fs.stat(m.path).value.modTime))
  {
    hide Blank;
  }

  /** A batch goes through exactly if each entry can be prepared and no path is
      registered already or twice in the batch; then the prepared entries follow the
      old ones in order. */
  lemma {:induction false} RegisterIff(fs: Files, media: seq<Media>, items: seq<Given>, now: int)
    ensures var r := Register(fs, media, items, now);
            r.Ok? <==> AllPrepared(fs, items, now) && PathsFresh(fs, media, items, now)
    ensures var r := Register(fs, media, items, now);
            r.Ok? ==> AllPrepared(fs, items, now) && r.value == media + Prepared(fs, items, now)
    decreases |items|
  {
    hide Prepare, PathTaken, PathsFresh, AllPrepared, Prepared;
    if items == [] {
      NothingPrepared(fs, media, now);
    } else {
      var p := Prepare(fs, items[0].media, items[0].drawn, now);
      FreshSplits(fs, media, items, now);
      if p.Ok? && !PathTaken(fs, media, p.value.path) {
        RegisterIff(fs, media + [p.value], items[1..], now);
        if AllPrepared(fs, items[1..], now) {
          var rest := Prepared(fs, items[1..], now);
          assert media + [p.value] + rest == media + ([p.value] + rest);
        }
      }
    }
  }

  lemma NothingPrepared(fs: Files, media: seq<Media>, now: int)
    ensures AllPrepared(fs, [], now) && PathsFresh(fs, media, [], now) && Prepared(fs, [], now) == []
    ensures media + Prepared(fs, [], now) == media
  {
  }

  predicate AllPrepared(fs: Files, items: seq<Given>, now: int) {
    forall k :: 0 <= k < |items| ==> Prepare(fs, items[k].media, items[k].drawn, now).Ok?
  }

  function Prepared(fs: Files, items: seq<Given>, now: int): (r: seq<Media>)
    requires AllPrepared(fs, items, now)
    ensures |r| == |items|
    ensures forall k :: 0 <= k < |items| ==> r[k] == Prepare(fs, items[k].media, items[k].drawn, now).value
  {
    seq(|items|, k requires 0 <= k < |items| => Prepare(fs, items[k].media, items[k].drawn, now).value)
  }

  /** No prepared path is that of an entry before it, old or new. */
  ghost predicate PathsFresh(fs: Files, media: seq<Media>, items: seq<Given>, now: int)
    requires AllPrepared(fs, items, now)
  {
    var r := Prepared(fs, items, now);
    && (forall k :: 0 <= k < |r| ==> !PathTaken(fs, media, r[k].path))
    && (forall j, k :: 0 <= j < k < |r| ==> fs.norm(r[j].path) != fs.norm(r[k].path))
  }

  lemma FreshSplits(fs: Files, media: seq<Media>, items: seq<Given>, now: int)
    requires items != []
    ensures AllPrepared(fs, items, now) <==>
              Prepare(fs, items[0].media, items[0].drawn, now).Ok? && AllPrepared(fs, items[1..], now)
    ensures AllPrepared(fs, items, now) ==>
              var m := Prepare(fs, items[0].media, items[0].drawn, now).value;
              && Prepared(fs, items, now) == [m] + Prepared(fs, items[1..], now)
              && (PathsFresh(fs, media, items, now)
                  <==> !PathTaken(fs, media, m.path) && PathsFresh(fs, media + [m], items[1..], now))
  {
    hide Prepare;
    if AllPrepared(fs, items, now) {
      var (m, rest) := (Prepare(fs, items[0].media, items[0].drawn, now).value, Prepared(fs, items[1..], now));
      assert Prepared(fs, items, now) == [m] + rest;
      forall k | 0 <= k < |rest|
        ensures PathTaken(fs, media + [m], rest[k].path)
                <==> PathTaken(fs, media, rest[k].path) || fs.norm(m.path) == fs.norm(rest[k].path)
      {
        TakenMore(fs, media, m, rest[k].path);
      }
      FreshCons(fs, media, m, rest);
    }
  }

  lemma TakenMore(fs: Files, media: seq<Media>, m: Media, path: string)
    ensures PathTaken(fs, media + [m], path) <==> PathTaken(fs, media, path) || fs.norm(m.path) == fs.norm(path)
  {
    assert (media + [m])[|media|] == m;
    assert forall i :: 0 <= i < |media| ==> (media + [m])[i] == media[i];
  }

  lemma FreshCons(fs: Files, media: seq<Media>, m: Media, rest: seq<Media>)
    ensures var r := [m] + rest;
            (forall j, k :: 0 <= j < k < |r| ==> fs.norm(r[j].path) != fs.norm(r[k].path))
            <==> (forall k :: 0 <= k < |rest| ==> fs.norm(m.path) != fs.norm(rest[k].path))
                 && (forall j, k :: 0 <= j < k < |rest| ==> fs.norm(rest[j].path) != fs.norm(rest[k].path))
    ensures (forall k :: 0 <= k < |rest| + 1 ==> !PathTaken(fs, media, ([m] + rest)[k].path))
            <==> !PathTaken(fs, media, m.path) && forall k :: 0 <= k < |rest| ==> !PathTaken(fs, media, rest[k].path)
  {
    hide PathTaken;
    ConsDistinct(m, rest, (a: Media, b: Media) => fs.norm(a.path) != fs.norm(b.path));
    ConsAll(m, rest, (a: Media) => !PathTaken(fs, media, a.path));
  }

  lemma ConsAll<T(!new)>(x: T, rest: seq<T>, ok: T -> bool)
    ensures (forall k :: 0 <= k < |rest| + 1 ==> ok(([x] + rest)[k]))
            <==> ok(x) && forall k :: 0 <= k < |rest| ==> ok(rest[k])
  {
    var r := [x] + rest;
    assert r[0] == x;
    if forall k :: 0 <= k < |rest| + 1 ==> ok(r[k]) {
      forall k | 0 <= k < |rest|
        ensures ok(rest[k])
      {
        assert r[k + 1] == rest[k];
      }
    }
  }

  lemma ConsDistinct<T(!new)>(x: T, rest: seq<T>, apart: (T, T) -> bool)
    ensures (forall j, k :: 0 <= j < k < |rest| + 1 ==> apart(([x] + rest)[j], ([x] + rest)[k]))
            <==> (forall k :: 0 <= k < |rest| ==> apart(x, rest[k]))
                 && forall j, k :: 0 <= j < k < |rest| ==> apart(rest[j], rest[k])
  {
    var r := [x] + rest;
    if forall j, k :: 0 <= j < k < |rest| + 1 ==> apart(r[j], r[k]) {
      forall k | 0 <= k < |rest|
        ensures apart(x, rest[k])
      {
        assert r[0] == x && r[k + 1] == rest[k];
      }
      forall j, k | 0 <= j < k < |rest|
        ensures apart(rest[j], rest[k])
      {
        assert r[j + 1] == rest[j] && r[k + 1] == rest[k];
      }
    }
  }

  lemma {:induction false} RegisterKeeps(fs: Files, media: seq<Media>, items: seq<Given>, now: int)
    ensures var r := Register(fs, media, items, now);
            && (r.Ok? ==> media <= r.value && |r.value| == |media| + |items|)
            && (r.Ok? && PathsDistinct(fs, media) ==> PathsDistinct(fs, r.value))
    decreases |items|
  {
    if items != [] {
      var r := Prepare(fs, items[0].media, items[0].drawn, now);
      if r.Ok? && !PathTaken(fs, media, r.value.path) {
        RegisterKeeps(fs, media + [r.value], items[1..], now);
        assert media <= media + [r.value];
      }
    }
  }

  /** A scan keeps every entry's id and path where they are and adds new paths
      only. */
  lemma {:induction false} MergeKeeps(fs: Files, media: seq<Media>, found: seq<Found>, now: int)
    ensures var r := Merge(fs, media, found, now);
            && |media| <= |r|
            && (forall i :: 0 <= i < |media| ==>
                  && r[i].id == media[i].id && r[i].path == media[i].path && r[i].createdAt == media[i].createdAt
                  && r[i].isDir == media[i].isDir && r[i].sortBy == media[i].sortBy)
            && (PathsDistinct(fs, media) ==> PathsDistinct(fs, r))
    decreases |found|
  {
    if found != [] {
      MergeOneKeeps(fs, media, found[0], now);
      hide MergeOne;
      MergeKeeps(fs, MergeOne(fs, media, found[0].media, found[0].drawn, now), found[1..], now);
    }
  }

  /** What ffprobe told of two entries is the same. */
  predicate SameProbe(a: Media, b: Media) {
    && a.probed == b.probed && a.duration == b.duration && a.width == b.width && a.height == b.height
    && a.bitrate == b.bitrate
  }

  /** A file that was found without being probed leaves the probe data alone. */
  lemma {:induction false} MergeKeepsProbe(fs: Files, media: seq<Media>, found: seq<Found>, now: int, i: nat)
    requires i < |media|
    requires forall j :: 0 <= j < |found| && fs.norm(found[j].media.path) == fs.norm(media[i].path) ==>
      !found[j].media.probed
    ensures var r := Merge(fs, media, found, now); i < |r| && SameProbe(r[i], media[i])
    decreases |found|
  {
    if found != [] {
      MergeOneKeeps(fs, media, found[0], now);
      assert found[0].media.probed ==> fs.norm(found[0].media.path) != fs.norm(media[i].path);
      MergeOneProbe(fs, media, found[0], now, i);
      hide MergeOne, SameProbe;
      var next := MergeOne(fs, media, found[0].media, found[0].drawn, now);
      MergeKeepsProbe(fs, next, found[1..], now, i);
      SameProbeTwice(Merge(fs, media, found, now)[i], next[i], media[i]);
    }
  }

  lemma SameProbeTwice(a: Media, b: Media, c: Media)
    requires SameProbe(a, b) && SameProbe(b, c)
    ensures SameProbe(a, c)
  {
  }

  lemma MergeOneProbe(fs: Files, media: seq<Media>, f: Found, now: int, i: nat)
    requires i < |media| && (f.media.probed ==> fs.norm(f.media.path) != fs.norm(media[i].path))
    ensures var r := MergeOne(fs, media, f.media, f.drawn, now); i < |r| && SameProbe(r[i], media[i])
  {
  }

  /** Adding and scanning change nothing but the media. */
  lemma AddAndScanMean(fs: Files, d: Data, items: seq<Given>, found: seq<Found>, now: int)
    ensures var o := AddMedia(fs, d, items, now);
            && (o.Commit? <==> AllPrepared(fs, items, now) && PathsFresh(fs, d.media, items, now))
            && (o.Commit? ==> o.doc == d.(media := d.media + Prepared(fs, items, now)))
    ensures ScanMedia(fs, d, found, now) == Commit(d.(media := Merge(fs, d.media, found, now)))
  {
    RegisterIff(fs, d.media, items, now);
    hide Register, AllPrepared, PathsFresh, Prepared;
  }

  lemma MergeOneKeeps(fs: Files, media: seq<Media>, f: Found, now: int)
    ensures var r := MergeOne(fs, media, f.media, f.drawn, now);
            && |media| <= |r|
            && (forall i :: 0 <= i < |media| ==>
                  && r[i].id == media[i].id && r[i].path == media[i].path && r[i].createdAt == media[i].createdAt
                  && r[i].isDir == media[i].isDir && r[i].sortBy == media[i].sortBy)
            && (PathsDistinct(fs, media) ==> PathsDistinct(fs, r))
  {
  }

  /** The entry shows the file as it was found. */
  predicate Listed(e: Media, m: Media, now: int) {
    && e.name == m.name && e.ext == m.ext && e.size == m.size && e.modTime == m.modTime && e.updatedAt == now
    && (m.probed ==>
          e.probed && e.duration == m.duration && e.width == m.width && e.height == m.height && e.bitrate == m.bitrate)
  }

  predicate Unlisted(fs: Files, media: seq<Media>, path: string) {
    forall i :: 0 <= i < |media| ==> fs.norm(media[i].path) != path
  }

  /** The place of a file after its merge. */
  function PlaceOf(fs: Files, media: seq<Media>, path: string): nat {
    match LastAt(fs, media, path)
    case Some(i) => i
    case None => |media|
  }

  lemma MergeOneLists(fs: Files, media: seq<Media>, f: Found, now: int)
    ensures var path := fs.norm(f.media.path);
            var (r, i) := (MergeOne(fs, media, f.media, f.drawn, now), PlaceOf(fs, media, path));
            && i < |r| && fs.norm(r[i].path) == path && Listed(r[i], f.media, now)
            && (Unlisted(fs, media, path) ==> r[i] == f.media.(id := f.drawn, createdAt := now, updatedAt := now))
  {
  }

  lemma MergeOnePaths(fs: Files, media: seq<Media>, m: Media, drawn: string, now: int, path: string)
    requires Unlisted(fs, media, path) && fs.norm(m.path) != path
    ensures Unlisted(fs, MergeOne(fs, media, m, drawn, now), path)
  {
  }

  /** Every file found is in the library afterwards, with the listing it was found
      with when no later file has its path: a file the library did not know as a new
      entry with its drawn id, a known one under the id it had. */
  lemma {:induction false} MergeLists(fs: Files, media: seq<Media>, found: seq<Found>, now: int, k: nat)
    returns (i: nat)
    requires k < |found|
    requires forall j :: k < j < |found| ==> fs.norm(found[j].media.path) != fs.norm(found[k].media.path)
    ensures var r := Merge(fs, media, found, now);
            var f := found[k];
            && i < |r| && fs.norm(r[i].path) == fs.norm(f.media.path) && Listed(r[i], f.media, now)
            && (Unlisted(fs, media, fs.norm(f.media.path))
                && (forall j :: 0 <= j < k ==> fs.norm(found[j].media.path) != fs.norm(f.media.path)) ==>
                  r[i] == f.media.(id := f.drawn, createdAt := now, updatedAt := now))
    decreases |found|
  {
    hide MergeOne, Listed;
    var (m, drawn) := (found[0].media, found[0].drawn);
    var next := MergeOne(fs, media, m, drawn, now);
    var path := fs.norm(found[k].media.path);
    if k > 0 {
      assert found[1..][k - 1] == found[k];
      i := MergeLists(fs, next, found[1..], now, k - 1);
      if Unlisted(fs, media, path) && fs.norm(m.path) != path {
        MergeOnePaths(fs, media, m, drawn, now, path);
      }
    } else {
      i := PlaceOf(fs, media, path);
      MergeOneLists(fs, media, found[0], now);
      MergeSkips(fs, next, found[1..], now, i);
    }
  }

  /** An entry whose file was not found is left as it is. */
  lemma {:induction false} MergeSkips(fs: Files, media: seq<Media>, found: seq<Found>, now: int, i: nat)
    requires i < |media|
    requires forall j :: 0 <= j < |found| ==> fs.norm(found[j].media.path) != fs.norm(media[i].path)
    ensures var r := Merge(fs, media, found, now); i < |r| && r[i] == media[i]
    decreases |found|
  {
    if found != [] {
      MergeSkips(fs, MergeOne(fs, media, found[0].media, found[0].drawn, now), found[1..], now, i);
    }
  }

  lemma AddKeepsRefs(fs: Files, d: Data, items: seq<Given>, now: int)
    requires Refs(d) && AddMedia(fs, d, items, now).Commit?
    ensures Refs(AddMedia(fs, d, items, now).doc)
  {
    RegisterKeeps(fs, d.media, items, now);
    var after := Register(fs, d.media, items, now).value;
    IdsKept(d, after);
  }

  lemma ScanKeepsRefs(fs: Files, d: Data, found: seq<Found>, now: int)
    requires Refs(d)
    ensures Refs(ScanMedia(fs, d, found, now).doc)
  {
    MergeKeeps(fs, d.media, found, now);
    IdsKept(d, Merge(fs, d.media, found, now));
  }

  lemma IdsKept(d: Data, after: seq<Media>)
    requires Refs(d) && |d.media| <= |after|
    requires forall i :: 0 <= i < |d.media| ==> after[i].id == d.media[i].id
    ensures Refs(d.(media := after))
  {
    forall id | HasMedia(d.media, id)
      ensures HasMedia(after, id)
    {
      var k :| 0 <= k < |d.media| && d.media[k].id == id;
      assert after[k].id == id;
    }
    assert MediaKept(d.media, after);
  }

  lemma WithoutDistinct(fs: Files, media: seq<Media>, i: nat)
    requires i < |media| && PathsDistinct(fs, media)
    ensures PathsDistinct(fs, Without(media, i))
  {
    var w := Without(media, i);
    assert forall k :: 0 <= k < |w| ==> w[k] == media[if k < i then k else k + 1];
  }

  // ---------------------------------------------------------------- the delete guard

  lemma DeletedKeepsOthers(media: seq<Media>, i: nat)
    requires i < |media|
    ensures forall id :: id != media[i].id && HasMedia(media, id) ==> HasMedia(Without(media, i), id)
  {
    var w := Without(media, i);
    forall id | id != media[i].id && HasMedia(media, id)
      ensures HasMedia(w, id)
    {
      var k :| 0 <= k < |media| && media[k].id == id;
      assert w[if k < i then k else k - 1] == media[k];
    }
  }

  lemma DeleteKeepsRefs(d: Data, id: string)
    requires Refs(d) && DeleteMedia(d, id).Commit?
    ensures Refs(DeleteMedia(d, id).doc)
  {
    var i := First(d.media, (m: Media) => m.id == id).value;
    DeletedKeepsOthers(d.media, i);
  }

  /** The guard refuses exactly the deletions that would leave a dangling
      reference, when ids are unique. */
  lemma DeleteGuardIsExact(d: Data, id: string, i: nat)
    requires Refs(d) && id != "" && i < |d.media| && d.media[i].id == id
    requires forall j, k :: 0 <= j < k < |d.media| ==> d.media[j].id != d.media[k].id
    ensures DeleteMedia(d, id) == Fail(InUse) <==> !Refs(d.(media := Without(d.media, i)))
    ensures DeleteMedia(d, id) == Fail(InUse) || DeleteMedia(d, id) == Commit(d.(media := Without(d.media, i)))
  {
    assert First(d.media, (m: Media) => m.id == id) == Some(i);
    var after := d.(media := Without(d.media, i));
    if MediaUsed(d, id) {
      assert !HasMedia(after.media, id) by {
        assert forall k :: 0 <= k < |after.media| ==> after.media[k] == d.media[if k < i then k else k + 1];
      }
      if p :| 0 <= p < |d.playlists| && id in d.playlists[p].items {
        var k :| 0 <= k < |d.playlists[p].items| && d.playlists[p].items[k] == id;
        assert !PlaylistRefs(after.media, after.playlists, after.playlists[p]);
      } else {
        var t :| 0 <= t < |d.tasks| && d.tasks[t].config.media == id;
        assert !TaskRefs(after.media, after.playlists, after.tasks[t]);
      }
    } else {
      DeleteKeepsRefs(d, id);
    }
  }
}
