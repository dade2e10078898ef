/** Suggestions under review: a decision and its effect are one update. */
module Reviews {
  import opened Wrappers
  import opened Strings
  import opened Documents
  import P = Playlists

  const MEDIA_KEY := "media_id"
  const PLAYLIST_KEY := "playlist_id"

  function CreateSuggestion(d: Data, kind: string, title: string, payload: map<string, string>, drawn: string, now: int)
    : Outcome
  {
    if kind !in {"media_recommend", "title_generate"} || payload == map[] then Fail(Invalid) else
    var s := Suggestion(drawn, kind, title, payload, Pending, "", now, None, now);
    Commit(d.(suggestions := d.suggestions + [s]))
  }

  function Approve(d: Data, id: string, name: string, drawn: string, now: int): Outcome {
    match First(d.suggestions, (s: Suggestion) => s.id == id)
    case None => Fail(NotFound)
    case Some(i) =>
      var s := d.suggestions[i];
      if s.status != Pending || s.payload == map[] then Fail(Invalid) else
      var media := if MEDIA_KEY in s.payload then s.payload[MEDIA_KEY] else "";
      if Blank(media) || Blank(name) then Fail(Invalid) else
      match P.PickItems(d.media, [media])
      case Err(_) => Fail(NotFound)
      case Ok(items) =>
        Commit(d.(playlists := d.playlists + [Playlist(drawn, name, "", "", items, false, now, now)],
                  suggestions := d.suggestions[i := Applying(s, drawn, now)]))
  }

  function Applying(s: Suggestion, playlist: string, now: int): Suggestion {
    s.(payload := s.payload[PLAYLIST_KEY := playlist], status := Applied, appliedAt := Some(now), updatedAt := now)
  }

  function Reject(d: Data, id: string, reason: string, now: int): Outcome {
    match First(d.suggestions, (s: Suggestion) => s.id == id)
    case None => Fail(NotFound)
    case Some(i) =>
      var s := d.suggestions[i];
      if s.status != Pending then Fail(Invalid)
      else
        var why := if Blank(reason) then "rejected by operator" else reason;
        Commit(d.(suggestions := d.suggestions[i := s.(status := Rejected, reason := why, updatedAt := now)]))
  }

  // ---------------------------------------------------------------- what a decision does

  /** Approval goes through exactly for a pending suggestion of an existing media
      under a real name; the new playlist then holds that media and nothing
      else, and the suggestion names it. */
  lemma ApprovalApplies(d: Data, id: string, name: string, drawn: string, now: int, i: nat)
    requires i < |d.suggestions| && d.suggestions[i].id == id
    requires forall j :: 0 <= j < i ==> d.suggestions[j].id != id
    ensures var s := d.suggestions[i];
            Approve(d, id, name, drawn, now).Commit? <==>
              (s.status == Pending && !Blank(name) && NamesMedia(d, s))
    ensures var s := d.suggestions[i];
            var o := Approve(d, id, name, drawn, now);
            o.Commit? ==>
              && |o.doc.playlists| == |d.playlists| + 1 && |o.doc.suggestions| == |d.suggestions|
              && var (p, t) := (o.doc.playlists[|d.playlists|], o.doc.suggestions[i]);
                 && o.doc == d.(playlists := d.playlists + [p], suggestions := d.suggestions[i := t])
                 && p.id == drawn && p.name == name && p.items == [Trim(s.payload["media_id"])]
                 && p.fallback == "" && !p.loop && p.createdAt == now && p.updatedAt == now
                 && t == s.(status := Applied, appliedAt := Some(now), updatedAt := now,
                            payload := s.payload["playlist_id" := drawn])
  {
    assert First(d.suggestions, (s: Suggestion) => s.id == id) == Some(i);
    var s := d.suggestions[i];
    if MEDIA_KEY in s.payload {
      P.PickRefusal(d.media, [s.payload[MEDIA_KEY]]);
      assert [s.payload[MEDIA_KEY]][0] == s.payload[MEDIA_KEY];
      assert P.PickItems(d.media, []) == Ok([]);
      assert [s.payload[MEDIA_KEY]][..0] == [];
    }
  }

  /** The payload leads to an existing media. */
  predicate NamesMedia(d: Data, s: Suggestion) {
    && "media_id" in s.payload && !Blank(s.payload["media_id"])
    && HasMedia(d.media, Trim(s.payload["media_id"]))
  }

  /** A suggestion of a known kind with a payload is stored, pending, as given. */
  lemma CreateMeans(d: Data, kind: string, title: string, payload: map<string, string>, drawn: string, now: int)
    ensures var o := CreateSuggestion(d, kind, title, payload, drawn, now);
            && (o.Commit? <==> (kind == "media_recommend" || kind == "title_generate") && payload.Keys != {})
            && (o.Commit? ==>
                  && |o.doc.suggestions| == |d.suggestions| + 1 && o.doc == d.(suggestions := o.doc.suggestions)
                  && o.doc.suggestions[..|d.suggestions|] == d.suggestions
                  && var s := o.doc.suggestions[|d.suggestions|];
                     && s.id == drawn && s.kind == kind && s.title == title && s.payload == payload
                     && s.status == Pending && s.createdAt == now && s.updatedAt == now
                     && s.appliedAt == None && s.reason == "")
  {
    assert payload.Keys == {} ==> payload == map[];
  }

  /** A rejection goes through exactly for a pending suggestion; it leaves the reason
      given, or a standing one for a blank reason, and touches nothing else. */
  lemma RejectionMeans(d: Data, id: string, reason: string, now: int, i: nat)
    requires First(d.suggestions, (s: Suggestion) => s.id == id) == Some(i)
    ensures var s := d.suggestions[i];
            var o := Reject(d, id, reason, now);
            && (o.Commit? <==> s.status == Pending)
            && (o.Commit? ==>
                  && |o.doc.suggestions| == |d.suggestions|
                  && var t := o.doc.suggestions[i];
                     && o.doc == d.(suggestions := d.suggestions[i := t])
                     && t == s.(status := Rejected, reason := t.reason, updatedAt := now)
                     && (if Blank(reason) then t.reason == "rejected by operator" else t.reason == reason))
  {
    hide Blank;
  }

  lemma ApprovalKeepsRefs(d: Data, id: string, name: string, drawn: string, now: int)
    requires Refs(d) && Approve(d, id, name, drawn, now).Commit?
    ensures Refs(Approve(d, id, name, drawn, now).doc)
  {
    var i := First(d.suggestions, (s: Suggestion) => s.id == id).value;
    var media := d.suggestions[i].payload[MEDIA_KEY];
    P.PickedExist(d.media, [media]);
    P.AppendKeepsRefs(d, Playlist(drawn, name, "", "", P.PickItems(d.media, [media]).value, false, now, now));
  }

  /** Decided suggestions stay where and as they are. */
  ghost predicate DecisionsKept(before: seq<Suggestion>, after: seq<Suggestion>) {
    && |before| <= |after|
    && forall i :: 0 <= i < |before| ==>
         after[i].id == before[i].id && (before[i].status != Pending ==> after[i] == before[i])
  }
}
