/** Resolution of a playlist through its chain of fallbacks. */
module Fallback {
  import opened Wrappers
  import opened Documents

  datatype Problem = NoPlaylist | MissingMedia | ChainCycle | ChainTooDeep

  const MAX_HOPS := 5

  // ---------------------------------------------------------------- one playlist

  function PlaylistAt(d: Data, id: string): Option<Playlist> {
    match First(d.playlists, (p: Playlist) => p.id == id)
    case None => None
    case Some(i) => Some(d.playlists[i])
  }

  function MediaAt(d: Data, id: string): Option<Media> {
    match First(d.media, (m: Media) => m.id == id)
    case None => None
    case Some(i) => Some(d.media[i])
  }

  function Entries(d: Data, items: seq<string>): Result<seq<Media>, Problem> {
    if items == [] then Ok([]) else
    var k := |items| - 1;
    var front := Entries(d, items[..k]);
    if front.Err? then front else
    match MediaAt(d, items[k])
    case None => Err(MissingMedia)
    case Some(m) => Ok(front.value + [m])
  }

  /** resolvePlaylistItems. */
  function Items(d: Data, id: string): Result<seq<Media>, Problem> {
    match PlaylistAt(d, id)
    case None => Err(NoPlaylist)
    case Some(p) => Entries(d, p.items)
  }

  /** A playlist is the first one with its id. */
  lemma PlaylistMeans(d: Data, id: string)
    ensures PlaylistAt(d, id).None? <==> !HasPlaylist(d.playlists, id)
    ensures forall i :: 0 <= i < |d.playlists| && d.playlists[i].id == id
                        && (forall j :: 0 <= j < i ==> d.playlists[j].id != id)
                        ==> PlaylistAt(d, id) == Some(d.playlists[i])
    ensures Next(d, id).Some? <==> PlaylistAt(d, id).Some? && PlaylistAt(d, id).value.fallback != ""
    ensures Next(d, id).Some? ==> Next(d, id).value == PlaylistAt(d, id).value.fallback
  {
  }

  /** It resolves exactly if it exists and all its items do: to the first media with
      each of its items' ids, in the order of its list. */
  lemma ItemsMean(d: Data, id: string)
    ensures var r := Items(d, id);
            r == Err(NoPlaylist) <==> !HasPlaylist(d.playlists, id)
    ensures var (p, r) := (PlaylistAt(d, id), Items(d, id));
            p.Some? ==>
              && (r.Ok? <==> forall k :: 0 <= k < |p.value.items| ==> HasMedia(d.media, p.value.items[k]))
              && (r.Ok? ==>
                    && |r.value| == |p.value.items|
                    && forall k :: 0 <= k < |r.value| ==>
                         r.value[k].id == p.value.items[k] && FirstWithItsId(d.media, r.value[k]))
  {
    PlaylistMeans(d, id);
    if PlaylistAt(d, id).Some? {
      EntriesListed(d, PlaylistAt(d, id).value.items);
    }
  }

  predicate FirstWithItsId(media: seq<Media>, m: Media) {
    exists i :: 0 <= i < |media| && media[i] == m && forall j :: 0 <= j < i ==> media[j].id != m.id
  }

  /** The playlist answers the request: it resolves to at least one entry. */
  predicate Wins(d: Data, id: string) {
    Items(d, id).Ok? && Items(d, id).value != []
  }

  lemma {:induction false} EntriesListed(d: Data, items: seq<string>)
    ensures var r := Entries(d, items);
            r.Ok? <==> forall k :: 0 <= k < |items| ==> HasMedia(d.media, items[k])
    ensures var r := Entries(d, items);
            r.Ok? ==> |r.value| == |items|
                      && forall k :: 0 <= k < |items| ==>
                           r.value[k].id == items[k] && FirstWithItsId(d.media, r.value[k])
    ensures Entries(d, items).Err? ==> Entries(d, items).error == MissingMedia
  {
    if items != [] {
      var k := |items| - 1;
      EntriesListed(d, items[..k]);
      assert items == items[..k] + [items[k]];
      assert forall j :: 0 <= j < k ==> items[..k][j] == items[j];
    }
  }

  // ---------------------------------------------------------------- the chain

  /** The fallback of a playlist that exists and has one. */
  function Next(d: Data, id: string): Option<string> {
    match PlaylistAt(d, id)
    case None => None
    case Some(p) => if p.fallback == "" then None else Some(p.fallback)
  }

  /** The k-th playlist id on the chain that starts at id, while it goes on. */
  function Hop(d: Data, id: string, k: nat): Option<string> {
    if k == 0 then Some(id) else
    match Hop(d, id, k - 1)
    case None => None
    case Some(at) => Next(d, at)
  }

  /** None of the first k playlists of the chain answers the request. */
  ghost predicate Dry(d: Data, id: string, k: nat) {
    forall j :: 0 <= j < k ==> Hop(d, id, j).Some? && !Wins(d, Hop(d, id, j).value)
  }

  /** The k-th playlist of the chain has come up before. */
  ghost predicate Revisit(d: Data, id: string, k: nat) {
    exists j :: 0 <= j < k && Hop(d, id, j) == Hop(d, id, k)
  }

  // ---------------------------------------------------------------- where the search stops

  /** The search stops where the chain revisits, answers, ends or has used up
      its hops. */
  ghost predicate Stops(d: Data, id: string, k: nat)
    requires Hop(d, id, k).Some?
  {
    Revisit(d, id, k) || Wins(d, Hop(d, id, k).value) || Hop(d, id, k + 1).None? || k == MAX_HOPS
  }

  /** What is reported when the search stops at the k-th playlist. */
  ghost function Verdict(d: Data, id: string, k: nat): Result<seq<Media>, Problem>
    requires Hop(d, id, k).Some?
  {
    var at := Hop(d, id, k).value;
    if Revisit(d, id, k) then Err(ChainCycle)
    else if Wins(d, at) || Hop(d, id, k + 1).None? then Items(d, at)
    else Err(ChainTooDeep)
  }

  /** A chain position the search can reach. */
  ghost predicate Reached(d: Data, id: string, k: nat) {
    && k <= MAX_HOPS && Dry(d, id, k) && Hop(d, id, k).Some?
    && forall j :: 0 <= j < k ==> !Revisit(d, id, j)
  }

  /** There is one place to stop, so the answer is a function of the document. */
  lemma StopsOnce(d: Data, id: string, a: nat, b: nat)
    requires Reached(d, id, a) && Stops(d, id, a)
    requires Reached(d, id, b) && Stops(d, id, b)
    ensures a == b
  {
    if a < b {
      StopsFirst(d, id, a, b);
    } else if b < a {
      StopsFirst(d, id, b, a);
    }
  }

  lemma StopsFirst(d: Data, id: string, a: nat, b: nat)
    requires Reached(d, id, a) && Stops(d, id, a) && a < b
    ensures !Reached(d, id, b)
  {
    if Reached(d, id, b) {
      assert !Revisit(d, id, a) && !Wins(d, Hop(d, id, a).value);
      HopPrefix(d, id, a + 1, b);
    }
  }

  lemma {:induction false} HopPrefix(d: Data, id: string, j: nat, k: nat)
    requires j <= k && Hop(d, id, k).Some?
    ensures Hop(d, id, j).Some?
  {
    if j < k {
      HopPrefix(d, id, j, k - 1);
    }
  }

  /** The first position from k on at which the search stops. */
  ghost function StopFrom(d: Data, id: string, k: nat): nat
    requires k <= MAX_HOPS && Hop(d, id, k).Some?
    decreases MAX_HOPS - k
  {
    if Stops(d, id, k) then k else StopFrom(d, id, k + 1)
  }

  /** What ResolveWithFallback answers: the entries or the problem, and whether a
      fallback was used. */
  ghost function Resolved(d: Data, id: string): (Result<seq<Media>, Problem>, bool) {
    var k := StopFrom(d, id, 0);
    StopIsReached(d, id, 0);
    (Verdict(d, id, k), k > 0)
  }

  lemma {:induction false} StopIsReached(d: Data, id: string, k: nat)
    requires Reached(d, id, k)
    ensures var stop := StopFrom(d, id, k); Reached(d, id, stop) && Stops(d, id, stop)
    decreases MAX_HOPS - k
  {
    hide Hop, Dry, Revisit;
    if !Stops(d, id, k) {
      NextReached(d, id, k);
      StopIsReached(d, id, k + 1);
    }
  }

  lemma NextReached(d: Data, id: string, k: nat)
    requires Reached(d, id, k) && !Stops(d, id, k)
    ensures k < MAX_HOPS && Reached(d, id, k + 1)
  {
    hide Items, Hop;
  }

  lemma StopsSomewhere(d: Data, id: string)
    ensures var stop := StopFrom(d, id, 0); Reached(d, id, stop) && Stops(d, id, stop)
  {
    StopIsReached(d, id, 0);
  }

  lemma ResolvedAt(d: Data, id: string, k: nat)
    requires Reached(d, id, k) && Stops(d, id, k)
    ensures Resolved(d, id) == (Verdict(d, id, k), k > 0)
  {
    StopIsReached(d, id, 0);
    StopsOnce(d, id, k, StopFrom(d, id, 0));
  }

  // ---------------------------------------------------------------- the loop

  /** The loop of ResolveWithFallback. */
  method ResolveWithFallback(d: Data, id: string) returns (r: Result<seq<Media>, Problem>, used: bool)
    ensures (r, used) == Resolved(d, id)
  {
    hide Items, Hop, Dry, Revisit, Verdict, Stops, Resolved;
    var seen := {};
    var cur := id;
    var hops := 0;
    used := false;
    ghost var k: nat := 0;
    ghost var trail := [];
    Start(d, id);
    while true
      invariant hops == k == |trail| <= MAX_HOPS && (used <==> k > 0)
      invariant Dry(d, id, k) && Hop(d, id, k) == Some(cur)
      invariant forall j :: 0 <= j < k ==> !Revisit(d, id, j)
      invariant forall j :: 0 <= j < k ==> Hop(d, id, j) == Some(trail[j])
      invariant seen == set x | x in trail
      decreases MAX_HOPS - hops
    {
      SeenIsRevisit(d, id, k, trail, cur);
      StopHere(d, id, k, cur);
      if Stops(d, id, k) {
        ResolvedAt(d, id, k);
      }
      if cur in seen {
        return Err(ChainCycle), used;
      }
      seen := seen + {cur};
      trail := trail + [cur];
      var items := Items(d, cur);
      if items.Ok? && |items.value| > 0 {
        return items, used;
      }
      var p := PlaylistAt(d, cur);
      if p.None? || p.value.fallback == "" {
        return items, used;
      }
      if hops >= MAX_HOPS {
        return Err(ChainTooDeep), used;
      }
      Onward(d, id, k);
      cur := p.value.fallback;
      hops := hops + 1;
      used := true;
      k := k + 1;
    }
  }

  lemma Start(d: Data, id: string)
    ensures Hop(d, id, 0) == Some(id) && Dry(d, id, 0)
  {
  }

  lemma SeenIsRevisit(d: Data, id: string, k: nat, trail: seq<string>, cur: string)
    requires |trail| == k && Hop(d, id, k) == Some(cur)
    requires forall j :: 0 <= j < k ==> Hop(d, id, j) == Some(trail[j])
    ensures cur in trail <==> Revisit(d, id, k)
  {
    hide Hop;
    if cur in trail {
      var j :| 0 <= j < k && trail[j] == cur;
      assert Hop(d, id, j) == Hop(d, id, k);
    }
  }

  lemma StopHere(d: Data, id: string, k: nat, cur: string)
    requires Hop(d, id, k) == Some(cur)
    ensures Revisit(d, id, k) ==> Stops(d, id, k) && Verdict(d, id, k) == Err(ChainCycle)
    ensures !Revisit(d, id, k) && (Wins(d, cur) || Next(d, cur).None?) ==> Stops(d, id, k)
    ensures !Revisit(d, id, k) && (Wins(d, cur) || Next(d, cur).None?) ==> Verdict(d, id, k) == Items(d, cur)
    ensures k == MAX_HOPS ==> Stops(d, id, k)
    ensures !Revisit(d, id, k) && !Wins(d, cur) && Next(d, cur).Some? ==> Verdict(d, id, k) == Err(ChainTooDeep)
  {
    assert Hop(d, id, k + 1) == Next(d, cur);
  }

  /** The search goes on to the next hop. */
  lemma Onward(d: Data, id: string, k: nat)
    requires Hop(d, id, k).Some? && Dry(d, id, k) && !Wins(d, Hop(d, id, k).value)
    ensures Hop(d, id, k + 1) == Next(d, Hop(d, id, k).value) && Dry(d, id, k + 1)
  {
  }

  // ---------------------------------------------------------------- when each answer comes

  /** From a repeated position the chain repeats for ever. */
  lemma {:induction false} HopRepeats(d: Data, id: string, j: nat, k: nat, n: nat)
    requires Hop(d, id, j) == Hop(d, id, k)
    ensures Hop(d, id, j + n) == Hop(d, id, k + n)
  {
    hide Next;
    if n > 0 {
      HopRepeats(d, id, j, k, n - 1);
    }
  }

  /** A playlist that answers, with none before it answering, is reached without
      a revisit. */
  lemma FirstWinnerIsReached(d: Data, id: string, k: nat)
    requires k <= MAX_HOPS && Dry(d, id, k) && Hop(d, id, k).Some? && Wins(d, Hop(d, id, k).value)
    ensures Reached(d, id, k) && !Revisit(d, id, k)
  {
    hide Hop, Wins;
    forall b | 0 <= b <= k
      ensures !Revisit(d, id, b)
    {
      if a :| 0 <= a < b && Hop(d, id, a) == Hop(d, id, b) {
        assert !Wins(d, Hop(d, id, a + (k - b)).value);
        HopRepeats(d, id, a, b, k - b);
      }
    }
  }

  /** A playlist of the chain that answers, with none before it answering. */
  ghost predicate FirstWinner(d: Data, id: string, k: nat) {
    k <= 5 && Dry(d, id, k) && Hop(d, id, k).Some? && Wins(d, Hop(d, id, k).value)
  }

  /** Entries are returned exactly when one of the first six playlists of the
      chain answers, and they are those of the first one that does. */
  lemma AnswersIff(d: Data, id: string)
    ensures var r := Resolved(d, id).0; r.Ok? && r.value != [] <==> exists k :: FirstWinner(d, id, k)
    ensures forall k :: FirstWinner(d, id, k) ==> Resolved(d, id).0 == Items(d, Hop(d, id, k).value)
  {
    hide Items, Hop, Dry;
    forall k | FirstWinner(d, id, k)
      ensures Resolved(d, id).0 == Items(d, Hop(d, id, k).value)
    {
      FirstWinnerIsReached(d, id, k);
      ResolvedAt(d, id, k);
    }
    StopsSomewhere(d, id);
  }

  /** A fallback was used exactly when the playlist asked for does not answer and
      has one. */
  lemma UsedIff(d: Data, id: string)
    ensures Resolved(d, id).1 <==> !Wins(d, id) && Next(d, id).Some?
  {
    hide Items, Next;
    assert Hop(d, id, 1) == Next(d, id);
    StopsSomewhere(d, id);
    assert Hop(d, id, 0) == Some(id) && !Revisit(d, id, 0);
  }

  /** The chain comes back to a playlist before any of it answers. */
  ghost predicate Loops(d: Data, id: string, k: nat) {
    k <= 5 && Dry(d, id, k) && Hop(d, id, k).Some? && Revisit(d, id, k)
  }

  /** A cycle is reported exactly when the chain comes back to a playlist within
      five hops before any playlist answers. */
  lemma CycleIff(d: Data, id: string)
    ensures Resolved(d, id).0 == Err(ChainCycle) <==> exists k :: Loops(d, id, k)
  {
    hide Items, Hop;
    StopsSomewhere(d, id);
    var stop := StopFrom(d, id, 0);
    ItemsProblem(d, Hop(d, id, stop).value);
    assert Revisit(d, id, stop) ==> Loops(d, id, stop);
    if k :| Loops(d, id, k) {
      var first := FirstRevisit(d, id, k);
      ResolvedAt(d, id, first);
    }
  }

  lemma {:induction false} FirstRevisit(d: Data, id: string, k: nat) returns (first: nat)
    requires Revisit(d, id, k)
    requires Hop(d, id, k).Some?
    ensures first <= k && Revisit(d, id, first) && Hop(d, id, first).Some?
    ensures forall j :: 0 <= j < first ==> !Revisit(d, id, j)
  {
    if j :| 0 <= j < k && Revisit(d, id, j) {
      HopPrefix(d, id, j, k);
      first := FirstRevisit(d, id, j);
    } else {
      first := k;
    }
  }

  lemma ItemsProblem(d: Data, id: string)
    ensures Items(d, id).Err? ==> Items(d, id).error == NoPlaylist || Items(d, id).error == MissingMedia
  {
    var p := PlaylistAt(d, id);
    if p.Some? {
      EntriesListed(d, p.value.items);
    }
  }

  /** Six different playlists in a row do not answer, and the sixth has a
      fallback. */
  ghost predicate TooLong(d: Data, id: string) {
    && Dry(d, id, 6) && Hop(d, id, 6).Some?
    && forall j :: 0 <= j <= 5 ==> !Revisit(d, id, j)
  }

  /** The depth is exceeded exactly when the chain is too long. */
  lemma TooDeepIff(d: Data, id: string)
    ensures Resolved(d, id).0 == Err(ChainTooDeep) <==> TooLong(d, id)
  {
    hide Items, Hop;
    StopsSomewhere(d, id);
    ItemsProblem(d, Hop(d, id, StopFrom(d, id, 0)).value);
    if TooLong(d, id) {
      ResolvedAt(d, id, MAX_HOPS);
    }
  }

  /** The chain ends within five hops and no playlist of it answers. */
  ghost predicate EndsDry(d: Data, id: string, k: nat) {
    && k <= 5 && Dry(d, id, k + 1) && Hop(d, id, k + 1).None?
    && forall j :: 0 <= j <= k ==> !Revisit(d, id, j)
  }

  /** Then the answer is that of its last playlist: the problem, or no entries. */
  lemma LastResort(d: Data, id: string, k: nat)
    requires EndsDry(d, id, k)
    ensures Hop(d, id, k).Some? && Resolved(d, id).0 == Items(d, Hop(d, id, k).value)
  {
    hide Items, Hop;
    assert Reached(d, id, k) && Stops(d, id, k);
    ResolvedAt(d, id, k);
  }

  /** One of the four answers always comes. */
  lemma SomeAnswer(d: Data, id: string)
    ensures (exists k :: FirstWinner(d, id, k)) || (exists k :: Loops(d, id, k)) || TooLong(d, id)
            || exists k :: EndsDry(d, id, k)
  {
    hide Items, Hop;
    StopsSomewhere(d, id);
    var k := StopFrom(d, id, 0);
    if Revisit(d, id, k) {
      assert Loops(d, id, k);
    } else if Wins(d, Hop(d, id, k).value) {
      assert FirstWinner(d, id, k);
    } else if Hop(d, id, k + 1).None? {
      assert EndsDry(d, id, k);
    } else {
      assert TooLong(d, id);
    }
  }

  /** In a document whose references resolve, an existing playlist is resolved
      unless its chain is cyclic or too deep. */
  lemma ConsistentChain(d: Data, id: string)
    requires Refs(d) && HasPlaylist(d.playlists, id)
    ensures var r := Resolved(d, id).0; r.Err? ==> r.error == ChainCycle || r.error == ChainTooDeep
    ensures forall k: nat :: k <= StopFrom(d, id, 0) ==> Hop(d, id, k).Some? && Items(d, Hop(d, id, k).value).Ok?
  {
    StopsSomewhere(d, id);
    forall k: nat | k <= StopFrom(d, id, 0)
      ensures Hop(d, id, k).Some? && Items(d, Hop(d, id, k).value).Ok?
    {
      HopPrefix(d, id, k, StopFrom(d, id, 0));
      ExistingResolves(d, id, k);
    }
  }

  lemma ExistingResolves(d: Data, id: string, k: nat)
    requires Refs(d) && HasPlaylist(d.playlists, id) && Hop(d, id, k).Some?
    ensures Items(d, Hop(d, id, k).value).Ok?
  {
    hide Hop;
    HopExists(d, id, k);
    var p := PlaylistAt(d, Hop(d, id, k).value).value;
    assert PlaylistRefs(d.media, d.playlists, p);
    EntriesListed(d, p.items);
  }

  lemma {:induction false} HopExists(d: Data, id: string, k: nat)
    requires Refs(d) && HasPlaylist(d.playlists, id) && Hop(d, id, k).Some?
    ensures HasPlaylist(d.playlists, Hop(d, id, k).value)
  {
    if k > 0 {
      HopExists(d, id, k - 1);
      var p := PlaylistAt(d, Hop(d, id, k - 1).value).value;
      assert PlaylistRefs(d.media, d.playlists, p);
    }
  }
}
