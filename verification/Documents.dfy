/** The document of the management store: its collections, the references
    between them and the outcome of an update. */
module Documents {
  import opened Wrappers
  import C = CronParser
  import R = Retention

  // ---------------------------------------------------------------- entities

  datatype Media = Media(
    id: string, name: string, path: string, ext: string, size: int, modTime: int,
    isDir: bool, sortBy: string,
    probed: bool, duration: real, width: int, height: int, bitrate: int,
    createdAt: int, updatedAt: int)

  datatype Playlist = Playlist(
    id: string, name: string, desc: string, fallback: string, items: seq<string>, loop: bool,
    createdAt: int, updatedAt: int)

  /** A cron text split at its spaces and commas; no field is without parts. */
  type CronText = fields: seq<seq<C.Part>> | C.Split(fields)

  datatype TaskSpec = TaskSpec(
    name: string, kind: string, interval: int, cron: CronText, action: string,
    playlist: string, media: string, scene: string, loop: bool,
    priority: string, interrupt: bool, interruptDuration: int, enabled: bool)

  /** ScheduleTask: the stored configuration and its bookkeeping. */
  datatype Task = Task(id: string, config: TaskSpec, createdAt: int, updatedAt: int)

  datatype Status = Pending | Applied | Rejected

  datatype Suggestion = Suggestion(
    id: string, kind: string, title: string, payload: map<string, string>, status: Status, reason: string,
    createdAt: int, appliedAt: Option<int>, updatedAt: int)

  /** What a snapshot holds beside its id and creation time. */
  datatype Capture = Capture(operator: string, description: string, hash: string, data: Data)

  datatype Template = Template(id: string, body: string)

  datatype Data = Data(
    media: seq<Media>, playlists: seq<Playlist>, tasks: seq<Task>, suggestions: seq<Suggestion>,
    scenes: seq<string>, snapshots: seq<R.Entry<Capture>>, templates: seq<Template>, updatedAt: int)

  /** A time stamp of zero stands for Go's zero time. */
  const NO_TIME := 0

  // ---------------------------------------------------------------- search

  /** The first element that matches, as the services' search loops find it. */
  function First<T>(s: seq<T>, hit: T -> bool): (r: Option<nat>)
    ensures r.None? ==> forall i :: 0 <= i < |s| ==> !hit(s[i])
    ensures r.Some? ==> r.value < |s| && hit(s[r.value]) && forall i :: 0 <= i < r.value ==> !hit(s[i])
  {
    FirstFrom(s, hit, 0)
  }

  function FirstFrom<T>(s: seq<T>, hit: T -> bool, from: nat): (r: Option<nat>)
    requires from <= |s|
    ensures r.None? ==> forall i :: from <= i < |s| ==> !hit(s[i])
    ensures r.Some? ==> from <= r.value < |s| && hit(s[r.value]) && forall i :: from <= i < r.value ==> !hit(s[i])
    decreases |s| - from
  {
    if from == |s| then None else if hit(s[from]) then Some(from) else FirstFrom(s, hit, from + 1)
  }

  method FindFirst<T>(s: seq<T>, hit: T -> bool) returns (r: Option<nat>)
    ensures r == First(s, hit)
  {
    var i := 0;
    while i < |s|
      invariant 0 <= i <= |s|
      invariant FirstFrom(s, hit, i) == First(s, hit)
    {
      if hit(s[i]) {
        return Some(i);
      }
      i := i + 1;
    }
    return None;
  }

  // ---------------------------------------------------------------- references

  predicate HasMedia(media: seq<Media>, id: string) {
    exists i :: 0 <= i < |media| && media[i].id == id
  }

  predicate HasPlaylist(playlists: seq<Playlist>, id: string) {
    exists i :: 0 <= i < |playlists| && playlists[i].id == id
  }

  predicate PlaylistRefs(media: seq<Media>, playlists: seq<Playlist>, p: Playlist) {
    && (forall k :: 0 <= k < |p.items| ==> HasMedia(media, p.items[k]))
    && (p.fallback != "" ==> p.fallback != p.id && HasPlaylist(playlists, p.fallback))
  }

  predicate TaskRefs(media: seq<Media>, playlists: seq<Playlist>, t: Task) {
    && (t.config.media != "" ==> HasMedia(media, t.config.media))
    && (t.config.playlist != "" ==> HasPlaylist(playlists, t.config.playlist))
  }

  /** Referential integrity of one document. */
  ghost predicate Refs(d: Data) {
    && (forall i :: 0 <= i < |d.playlists| ==> PlaylistRefs(d.media, d.playlists, d.playlists[i]))
    && (forall i :: 0 <= i < |d.tasks| ==> TaskRefs(d.media, d.playlists, d.tasks[i]))
  }

  /** Nothing that resolved before stops resolving. */
  ghost predicate MediaKept(before: seq<Media>, after: seq<Media>) {
    forall id :: HasMedia(before, id) ==> HasMedia(after, id)
  }

  ghost predicate PlaylistsKept(before: seq<Playlist>, after: seq<Playlist>) {
    forall id :: HasPlaylist(before, id) ==> HasPlaylist(after, id)
  }

  /** The check of the delete operations is made on these. */
  predicate MediaUsed(d: Data, id: string) {
    || (exists i :: 0 <= i < |d.playlists| && id in d.playlists[i].items)
    || (exists i :: 0 <= i < |d.tasks| && d.tasks[i].config.media == id)
  }

  predicate PlaylistUsed(d: Data, id: string) {
    || (exists i :: 0 <= i < |d.tasks| && d.tasks[i].config.playlist == id)
    || (exists i :: 0 <= i < |d.playlists| && d.playlists[i].fallback == id)
  }

  // ---------------------------------------------------------------- updates

  /** What the callback of Store.Update reports: the mutated copy, errNoop or an
      error. */
  datatype Outcome = Commit(doc: Data) | Noop | Fail(error: Fault)

  /** Store.Update: only a committed copy that reaches the disk becomes the live
      document, stamped with the time of the write. */
  function Settle(d: Data, o: Outcome, now: int, written: bool): (Data, Result<(), Fault>) {
    match o
    case Fail(e) => (d, Err(e))
    case Noop => (d, Ok(()))
    case Commit(copy) => if written then (copy.(updatedAt := now), Ok(())) else (d, Err(WriteFailed))
  }
}
