/** Configuration snapshots: capture, rolling history and the phases of a
    restore. */
module Snapshots {
  import opened Wrappers
  import opened Sequences
  import opened Documents
  import R = Retention

  /** snapshotPayload: the business collections of the document. */
  function Payload(d: Data): Data {
    d.(snapshots := [], templates := [], updatedAt := NO_TIME)
  }

  /** A payload holds no snapshot, no template and no write time. */
  predicate Bare(d: Data) {
    d.snapshots == [] && d.templates == [] && d.updatedAt == NO_TIME
  }

  function Rolled(list: seq<R.Entry<Capture>>, max: int): seq<R.Entry<Capture>> {
    if max > 0 then R.Retain(list, R.Every, max) else list
  }

  function StoreSnapshot(d: Data, e: R.Entry<Capture>, max: int): Outcome {
    Commit(d.(snapshots := Rolled(d.snapshots + [e], max)))
  }

  function DeleteSnapshot(d: Data, id: string): Outcome {
    match First(d.snapshots, (s: R.Entry<Capture>) => s.id == id)
    case None => Fail(NotFound)
    case Some(i) => Commit(d.(snapshots := Without(d.snapshots, i)))
  }

  /** The first phase of Restore: a copy of the stored payload. */
  function FindPayload(d: Data, id: string): Option<Data> {
    match First(d.snapshots, (s: R.Entry<Capture>) => s.id == id)
    case None => None
    case Some(i) => Some(d.snapshots[i].body.data)
  }

  /** The second phase: the history and templates of the current document. */
  function CarriedOver(payload: Data, d: Data, now: int): Data {
    payload.(updatedAt := now, snapshots := d.snapshots, templates := d.templates)
  }

  /** Restore with nothing in between its phases. */
  function Restored(d: Data, id: string, now: int): Option<Data> {
    match FindPayload(d, id)
    case None => None
    case Some(payload) => Some(CarriedOver(payload, d, now))
  }

  // ---------------------------------------------------------------- lists of snapshots

  /** The list keeps entries only, and keeps them apart. */
  ghost predicate SubList(part: seq<R.Entry<Capture>>, whole: seq<R.Entry<Capture>>) {
    R.Distinct(part) && forall e :: e in part ==> e in whole
  }

  lemma RolledSubList(list: seq<R.Entry<Capture>>, max: int)
    requires R.Distinct(list)
    ensures SubList(Rolled(list, max), list)
  {
    if max > 0 {
      R.FilterDistinct(list, e => R.Keeps(list, e, R.Every, max));
      R.RetainSplits(list, R.Every, max);
    }
  }

  /** With a positive limit the smaller of it and their number stays, the newest; without
      one all stay. */
  lemma RolledMeans(list: seq<R.Entry<Capture>>, max: int)
    requires R.Distinct(list)
    ensures max <= 0 ==> Rolled(list, max) == list
    ensures max > 0 ==> |Rolled(list, max)| == if |list| < max then |list| else max
    ensures forall x, y :: x in Rolled(list, max) && y in list && y !in Rolled(list, max) ==>
              x.time > y.time || (x.time == y.time && R.LexLess(x.id, y.id))
  {
    if max > 0 {
      R.RetainEvery(list, max);
      R.RetainSplits(list, R.Every, max);
      forall x, y | x in Rolled(list, max) && y in list && y !in Rolled(list, max)
        ensures x.time > y.time || (x.time == y.time && R.LexLess(x.id, y.id))
      {
        R.RetainNewest(list, R.Every, max, x, y);
      }
    }
  }

  lemma WithoutSubList(list: seq<R.Entry<Capture>>, i: nat)
    requires R.Distinct(list) && i < |list|
    ensures SubList(Without(list, i), list)
  {
    R.WithoutDistinct(list, i);
    WithoutMembers(list, i);
  }

  /** A stored snapshot is found by its id, and its payload is the one stored. */
  lemma FoundById(d: Data, e: R.Entry<Capture>)
    requires R.Distinct(d.snapshots) && e in d.snapshots
    ensures FindPayload(d, e.id) == Some(e.body.data)
  {
    var i := First(d.snapshots, (s: R.Entry<Capture>) => s.id == e.id);
    var k :| 0 <= k < |d.snapshots| && d.snapshots[k] == e;
    assert i == Some(k);
  }
}
