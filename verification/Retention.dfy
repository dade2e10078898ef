/** Keep the newest k: the one specification behind snapshot rolling, audit
    pruning and command purging, and the three algorithms that refine it. */
module Retention {
  import opened Wrappers
  import opened Sequences

  /** A stored record: newest first means by time, ids breaking ties. */
  datatype Entry<T> = Entry(id: string, time: int, body: T)

  // ---------------------------------------------------------------- the order

  predicate LexLess(a: string, b: string) {
    b != "" && (a == "" || a[0] < b[0] || (a[0] == b[0] && LexLess(a[1..], b[1..])))
  }

  /** The order of Go strings: at the first difference the smaller character, or the end
      of the first string, decides. */
  lemma {:induction false} LexMeans(a: string, b: string)
    ensures LexLess(a, b) <==>
      exists k: nat :: k <= |a| && k < |b| && a[..k] == b[..k] && (k == |a| || a[k] < b[k])
  {
    if a == "" || b == "" {
      if b != "" {
        assert a[..0] == b[..0];
      }
    } else {
      LexMeans(a[1..], b[1..]);
      if a[0] < b[0] {
        assert a[..0] == b[..0];
      }
      if a[0] == b[0] && LexLess(a[1..], b[1..]) {
        var k: nat :| k < |a| && k + 1 < |b| && a[1..][..k] == b[1..][..k] && (k == |a| - 1 || a[1..][k] < b[1..][k]);
        assert a[..k + 1] == [a[0]] + a[1..][..k] && b[..k + 1] == [b[0]] + b[1..][..k];
        assert k + 1 == |a| || a[k + 1] < b[k + 1];
      }
      if k: nat :| k <= |a| && k < |b| && a[..k] == b[..k] && (k == |a| || a[k] < b[k]) {
        if k > 0 {
          assert a[0] == a[..k][0] == b[..k][0] == b[0];
          assert a[1..][..k - 1] == a[..k][1..] == b[..k][1..] == b[1..][..k - 1];
        }
      }
    }
  }

  lemma {:induction false} LexTotal(a: string, b: string)
    ensures a != b ==> LexLess(a, b) || LexLess(b, a)
    ensures !(LexLess(a, b) && LexLess(b, a)) && !LexLess(a, a)
  {
    if a != "" {
      LexTotal(a[1..], a[1..]);
    }
    if a != "" && b != "" {
      LexTotal(a[1..], b[1..]);
      assert a == [a[0]] + a[1..] && b == [b[0]] + b[1..];
    }
  }

  lemma {:induction false} LexTransitive(a: string, b: string, c: string)
    requires LexLess(a, b) && LexLess(b, c)
    ensures LexLess(a, c)
  {
    if a != "" && a[0] == b[0] == c[0] {
      LexTransitive(a[1..], b[1..], c[1..]);
    }
  }

  /** snapshotNewer, and the order of List. */
  predicate Newer<T>(a: Entry<T>, b: Entry<T>) {
    if a.time == b.time then LexLess(a.id, b.id) else a.time > b.time
  }

  lemma NewerTotal<T>(a: Entry<T>, b: Entry<T>)
    ensures a.id != b.id ==> Newer(a, b) || Newer(b, a)
    ensures !(Newer(a, b) && Newer(b, a)) && !Newer(a, a)
  {
    LexTotal(a.id, b.id);
  }

  lemma NewerTransitive<T>(a: Entry<T>, b: Entry<T>, c: Entry<T>)
    requires Newer(a, b) && Newer(b, c)
    ensures Newer(a, c)
  {
    if a.time == b.time == c.time {
      LexTransitive(a.id, b.id, c.id);
    }
  }

  ghost predicate Distinct<T>(s: seq<Entry<T>>) {
    forall i, j :: 0 <= i < j < |s| ==> s[i].id != s[j].id
  }

  // ---------------------------------------------------------------- the specification

  function Filter<T>(s: seq<T>, keep: T -> bool): seq<T> {
    if s == [] then [] else
    var k := |s| - 1;
    Filter(s[..k], keep) + (if keep(s[k]) then [s[k]] else [])
  }

  /** How many eligible records are newer than e. */
  function NewerCount<T>(s: seq<Entry<T>>, e: Entry<T>, eligible: Entry<T> -> bool): nat {
    |Filter(s, x => eligible(x) && Newer(x, e))|
  }

  predicate Keeps<T>(s: seq<Entry<T>>, e: Entry<T>, eligible: Entry<T> -> bool, k: nat) {
    eligible(e) ==> NewerCount(s, e, eligible) < k
  }

  /** Every ineligible record and the newest k eligible ones, in document order. */
  function Retain<T>(s: seq<Entry<T>>, eligible: Entry<T> -> bool, k: nat): seq<Entry<T>> {
    Filter(s, e => Keeps(s, e, eligible, k))
  }

  function Dropped<T>(s: seq<Entry<T>>, eligible: Entry<T> -> bool, k: nat): seq<Entry<T>> {
    Filter(s, e => !Keeps(s, e, eligible, k))
  }

  lemma {:induction false} FilterMembers<T>(s: seq<T>, keep: T -> bool)
    ensures forall x :: x in Filter(s, keep) <==> x in s && keep(x)
  {
    if s != [] {
      var k := |s| - 1;
      FilterMembers(s[..k], keep);
      assert s == s[..k] + [s[k]];
    }
  }

  lemma FilterOrigin<T>(s: seq<T>, keep: T -> bool, x: T) returns (j: nat)
    requires x in Filter(s, keep)
    ensures j < |s| && s[j] == x && keep(x)
  {
    FilterMembers(s, keep);
    assert x in s;
    j :| 0 <= j < |s| && s[j] == x;
  }

  lemma {:induction false} FilterAppend<T>(a: seq<T>, b: seq<T>, keep: T -> bool)
    ensures Filter(a + b, keep) == Filter(a, keep) + Filter(b, keep)
  {
    if b == [] {
      assert a + b == a;
    } else {
      var k := |b| - 1;
      FilterAppend(a, b[..k], keep);
      assert (a + b)[..|a + b| - 1] == a + b[..k];
    }
  }

  lemma {:induction false} FilterAgrees<T>(s: seq<T>, f: T -> bool, g: T -> bool)
    requires forall x :: x in s ==> f(x) == g(x)
    ensures Filter(s, f) == Filter(s, g)
  {
    if s != [] {
      FilterAgrees(s[..|s| - 1], f, g);
    }
  }

  lemma {:induction false} FilterFewer<T>(s: seq<T>, f: T -> bool, g: T -> bool)
    requires forall x :: x in s && f(x) ==> g(x)
    ensures |Filter(s, f)| <= |Filter(s, g)|
  {
    if s != [] {
      FilterFewer(s[..|s| - 1], f, g);
    }
  }

  lemma {:induction false} FilterTrue<T>(s: seq<T>, f: T -> bool)
    requires forall x :: x in s ==> f(x)
    ensures Filter(s, f) == s
  {
    if s != [] {
      var k := |s| - 1;
      FilterTrue(s[..k], f);
      assert s == s[..k] + [s[k]];
    }
  }

  lemma {:induction false} FilterFalse<T>(s: seq<T>, f: T -> bool)
    requires forall x :: x in s ==> !f(x)
    ensures Filter(s, f) == []
  {
    if s != [] {
      FilterFalse(s[..|s| - 1], f);
    }
  }

  lemma {:induction false} FilterTwice<T>(s: seq<T>, f: T -> bool, g: T -> bool, both: T -> bool)
    requires forall x :: x in s ==> both(x) == (f(x) && g(x))
    ensures Filter(Filter(s, f), g) == Filter(s, both)
  {
    if s != [] {
      var k := |s| - 1;
      FilterTwice(s[..k], f, g, both);
      if f(s[k]) {
        FilterPush(Filter(s[..k], f), s[k], g);
      } else {
        assert Filter(s, f) == Filter(s[..k], f);
      }
    }
  }

  lemma FilterOne<T>(x: T, keep: T -> bool)
    ensures Filter([x], keep) == if keep(x) then [x] else []
  {
    assert [x][..0] == [];
  }

  lemma FilterAdds<T>(s: seq<T>, x: T, keep: T -> bool)
    ensures multiset(Filter(s + [x], keep)) == multiset(Filter(s, keep)) + if keep(x) then multiset{x} else multiset{}
  {
    FilterPush(s, x, keep);
  }

  lemma {:induction false} FilterSplits<T>(s: seq<T>, keep: T -> bool, drop: T -> bool)
    requires forall x :: x in s ==> drop(x) == !keep(x)
    ensures multiset(Filter(s, keep)) + multiset(Filter(s, drop)) == multiset(s)
  {
    if s != [] {
      var k := |s| - 1;
      FilterSplits(s[..k], keep, drop);
      assert s == s[..k] + [s[k]];
      FilterAdds(s[..k], s[k], keep);
      FilterAdds(s[..k], s[k], drop);
      hide Filter;
      assert drop(s[k]) == !keep(s[k]);
    }
  }

  /** A filter count depends on the contents only. */
  lemma {:induction false} FilterCountPermuted<T>(a: seq<T>, b: seq<T>, keep: T -> bool)
    requires multiset(a) == multiset(b)
    ensures |Filter(a, keep)| == |Filter(b, keep)|
    decreases |a|
  {
    assert |multiset(a)| == |a| && |multiset(b)| == |b|;
    if a != [] {
      hide Filter, Without;
      assert a[0] in multiset(b);
      var i :| 0 <= i < |b| && b[i] == a[0];
      WithoutMultiset(a, 0);
      WithoutMultiset(b, i);
      WithoutLength(a, 0);
      FilterCountPermuted(Without(a, 0), Without(b, i), keep);
      DropOne(a, 0, keep);
      DropOne(b, i, keep);
    }
  }

  lemma FilterPush<T>(s: seq<T>, x: T, keep: T -> bool)
    ensures Filter(s + [x], keep) == Filter(s, keep) + (if keep(x) then [x] else [])
  {
    assert (s + [x])[..|s|] == s;
  }

  lemma FilterAround<T>(front: seq<T>, x: T, back: seq<T>, keep: T -> bool)
    ensures |Filter(front + [x] + back, keep)|
         == |Filter(front, keep)| + (if keep(x) then 1 else 0) + |Filter(back, keep)|
    ensures !keep(x) ==> Filter(front + [x] + back, keep) == Filter(front + back, keep)
  {
    hide Filter;
    FilterPush(front, x, keep);
    FilterAppend(front + [x], back, keep);
    FilterAppend(front, back, keep);
  }

  lemma FilterAt<T>(s: seq<T>, i: nat, keep: T -> bool)
    requires i < |s|
    ensures |Filter(s, keep)| == |Filter(s[..i], keep)| + (if keep(s[i]) then 1 else 0) + |Filter(s[i + 1..], keep)|
    ensures !keep(s[i]) ==> Filter(s, keep) == Filter(Without(s, i), keep)
  {
    hide Filter;
    assert s == s[..i] + [s[i]] + s[i + 1..];
    FilterAround(s[..i], s[i], s[i + 1..], keep);
  }

  lemma DropOne<T>(s: seq<T>, i: nat, keep: T -> bool)
    requires i < |s|
    ensures |Filter(s, keep)| == |Filter(Without(s, i), keep)| + if keep(s[i]) then 1 else 0
    ensures !keep(s[i]) ==> Filter(s, keep) == Filter(Without(s, i), keep)
  {
    hide Filter;
    FilterAt(s, i, keep);
    FilterAppend(s[..i], s[i + 1..], keep);
  }

  // ---------------------------------------------------------------- the oldest record

  predicate Oldest<T>(s: seq<Entry<T>>, o: nat, eligible: Entry<T> -> bool)
    requires o < |s|
  {
    eligible(s[o]) && forall i :: 0 <= i < |s| && i != o && eligible(s[i]) ==> Newer(s[i], s[o])
  }

  lemma OldestRank<T>(s: seq<Entry<T>>, o: nat, eligible: Entry<T> -> bool)
    requires Distinct(s) && o < |s| && Oldest(s, o, eligible)
    ensures NewerCount(s, s[o], eligible) + 1 == |Filter(s, eligible)|
  {
    hide Filter;
    var rest := Without(s, o);
    var newer := (x: Entry<T>) => eligible(x) && Newer(x, s[o]);
    NewerTotal(s[o], s[o]);
    DropOne(s, o, newer);
    DropOne(s, o, eligible);
    forall x | x in rest
      ensures newer(x) == eligible(x)
    {
      var i := WithoutMember(s, o, x);
    }
    FilterAgrees(rest, newer, eligible);
  }

  /** The oldest eligible record counts for nobody's rank. */
  lemma RankUnaffected<T>(s: seq<Entry<T>>, o: nat, eligible: Entry<T> -> bool, e: Entry<T>)
    requires Distinct(s) && o < |s| && Oldest(s, o, eligible) && e in Without(s, o) && eligible(e)
    ensures NewerCount(s, e, eligible) == NewerCount(Without(s, o), e, eligible)
  {
    hide Filter;
    DropOne(s, o, x => eligible(x) && Newer(x, e));
    var i := WithoutMember(s, o, e);
    NewerTotal(e, s[o]);
  }

  lemma WithoutDistinct<T>(s: seq<Entry<T>>, o: nat)
    requires Distinct(s) && o < |s|
    ensures Distinct(Without(s, o))
  {
    assert forall i :: 0 <= i < |s| - 1 ==> Without(s, o)[i] == s[if i < o then i else i + 1];
  }

  /** Dropping the oldest of more than k eligible records retains the same. */
  lemma RetainWithoutOldest<T>(s: seq<Entry<T>>, o: nat, eligible: Entry<T> -> bool, k: nat)
    requires Distinct(s) && o < |s| && Oldest(s, o, eligible) && |Filter(s, eligible)| > k
    ensures Retain(s, eligible, k) == Retain(Without(s, o), eligible, k)
    ensures |Filter(Without(s, o), eligible)| == |Filter(s, eligible)| - 1
    ensures Distinct(Without(s, o))
  {
    assert eligible(s[o]);
    hide Filter, Oldest, Without;
    var rest := Without(s, o);
    OldestRank(s, o, eligible);
    WithoutDistinct(s, o);
    DropOne(s, o, eligible);
    DropOne(s, o, e => Keeps(s, e, eligible, k));
    forall e | e in rest && eligible(e)
      ensures NewerCount(s, e, eligible) == NewerCount(rest, e, eligible)
    {
      RankUnaffected(s, o, eligible, e);
    }
    hide NewerCount;
    FilterAgrees(rest, e => Keeps(s, e, eligible, k), e => Keeps(rest, e, eligible, k));
  }

  lemma RankBelow<T>(s: seq<Entry<T>>, eligible: Entry<T> -> bool, e: Entry<T>)
    requires e in s && eligible(e)
    ensures NewerCount(s, e, eligible) < |Filter(s, eligible)|
  {
    hide Filter;
    var newer := (x: Entry<T>) => eligible(x) && Newer(x, e);
    var i :| 0 <= i < |s| && s[i] == e;
    NewerTotal(e, e);
    DropOne(s, i, newer);
    DropOne(s, i, eligible);
    FilterFewer(Without(s, i), newer, eligible);
  }

  /** With at most k eligible records nothing is dropped. */
  lemma RetainAll<T>(s: seq<Entry<T>>, eligible: Entry<T> -> bool, k: nat)
    requires Distinct(s) && |Filter(s, eligible)| <= k
    ensures Retain(s, eligible, k) == s
  {
    hide Filter;
    forall e | e in s && eligible(e)
      ensures NewerCount(s, e, eligible) < k
    {
      RankBelow(s, eligible, e);
    }
    FilterTrue(s, e => Keeps(s, e, eligible, k));
  }

  lemma {:induction false} OldestExists<T>(s: seq<Entry<T>>, eligible: Entry<T> -> bool) returns (o: nat)
    requires Distinct(s) && Filter(s, eligible) != []
    ensures o < |s| && Oldest(s, o, eligible)
  {
    var k := |s| - 1;
    if Filter(s[..k], eligible) == [] {
      FilterMembers(s[..k], eligible);
      o := k;
      assert forall i :: 0 <= i < k ==> s[..k][i] == s[i] && s[i] in s[..k];
    } else {
      o := OldestExists(s[..k], eligible);
      assert forall i :: 0 <= i < k ==> s[..k][i] == s[i];
      NewerTotal(s[o], s[k]);
      if eligible(s[k]) && Newer(s[o], s[k]) {
        forall i | 0 <= i < k && eligible(s[i])
          ensures Newer(s[i], s[k])
        {
          if i != o {
            NewerTransitive(s[i], s[o], s[k]);
          }
        }
        o := k;
      }
    }
  }

  // ---------------------------------------------------------------- what Retain means

  /** Exactly min(k, n) of the n eligible records are kept. */
  lemma {:induction false} RetainCount<T>(s: seq<Entry<T>>, eligible: Entry<T> -> bool, k: nat)
    requires Distinct(s)
    ensures var n := |Filter(s, eligible)|;
            |Filter(Retain(s, eligible, k), eligible)| == if n < k then n else k
    decreases |s|
  {
    if |Filter(s, eligible)| <= k {
      RetainAll(s, eligible, k);
    } else {
      var o := OldestExists(s, eligible);
      RetainWithoutOldest(s, o, eligible, k);
      RetainCount(Without(s, o), eligible, k);
    }
  }

  /** An older record has at least the rank of a newer one. */
  lemma RankMonotone<T>(s: seq<Entry<T>>, eligible: Entry<T> -> bool, y: Entry<T>, x: Entry<T>)
    requires Newer(y, x)
    ensures NewerCount(s, y, eligible) <= NewerCount(s, x, eligible)
  {
    forall z | z in s && eligible(z) && Newer(z, y)
      ensures Newer(z, x)
    {
      NewerTransitive(z, y, x);
    }
    FilterFewer(s, z => eligible(z) && Newer(z, y), z => eligible(z) && Newer(z, x));
  }

  /** Kept and dropped records are the original ones, and the ineligible are
      kept. */
  lemma RetainSplits<T>(s: seq<Entry<T>>, eligible: Entry<T> -> bool, k: nat)
    ensures multiset(Retain(s, eligible, k)) + multiset(Dropped(s, eligible, k)) == multiset(s)
    ensures forall x :: x in Retain(s, eligible, k) <==> x in s && Keeps(s, x, eligible, k)
    ensures forall y :: y in Dropped(s, eligible, k) <==> y in s && eligible(y) && !Keeps(s, y, eligible, k)
  {
    FilterSplits(s, e => Keeps(s, e, eligible, k), e => !Keeps(s, e, eligible, k));
    FilterMembers(s, e => Keeps(s, e, eligible, k));
    FilterMembers(s, e => !Keeps(s, e, eligible, k));
  }

  /** Every eligible record kept is newer than every record dropped: later, or of the
      same time with the smaller id. */
  lemma RetainNewest<T>(s: seq<Entry<T>>, eligible: Entry<T> -> bool, k: nat, x: Entry<T>, y: Entry<T>)
    requires Distinct(s)
    requires x in Retain(s, eligible, k) && eligible(x) && y in Dropped(s, eligible, k)
    ensures x.time > y.time || (x.time == y.time && LexLess(x.id, y.id))
  {
    RetainSplits(s, eligible, k);
    NewerTotal(x, y);
    assert x.id != y.id by {
      var i :| 0 <= i < |s| && s[i] == x;
      var j :| 0 <= j < |s| && s[j] == y;
    }
    if Newer(y, x) {
      RankMonotone(s, eligible, y, x);
    }
  }

  // ---------------------------------------------------------------- sorting

  function Insert<T>(e: Entry<T>, s: seq<Entry<T>>): seq<Entry<T>> {
    if s == [] then [e]
    else if Newer(e, s[0]) then [e] + s
    else [s[0]] + Insert(e, s[1..])
  }

  /** sort.Slice by the same order. */
  function Sort<T>(s: seq<Entry<T>>): seq<Entry<T>> {
    if s == [] then [] else Insert(s[0], Sort(s[1..]))
  }

  ghost predicate NewestFirst<T>(s: seq<Entry<T>>) {
    forall i, j :: 0 <= i < j < |s| ==> Newer(s[i], s[j])
  }

  lemma {:induction false} InsertSorts<T>(e: Entry<T>, s: seq<Entry<T>>)
    requires NewestFirst(s) && forall i :: 0 <= i < |s| ==> s[i].id != e.id
    ensures multiset(Insert(e, s)) == multiset(s) + multiset{e} && NewestFirst(Insert(e, s))
  {
    if s != [] {
      NewerTotal(e, s[0]);
      assert s == [s[0]] + s[1..];
      if Newer(e, s[0]) {
        forall i | 0 <= i < |s|
          ensures Newer(e, s[i])
        {
          if i > 0 {
            NewerTransitive(e, s[0], s[i]);
          }
        }
      } else {
        InsertSorts(e, s[1..]);
        var t := Insert(e, s[1..]);
        forall i | 0 <= i < |t|
          ensures Newer(s[0], t[i])
        {
          assert t[i] in multiset(t);
          assert t[i] == e || t[i] in s[1..];
        }
      }
    }
  }

  lemma {:induction false} SortSorts<T>(s: seq<Entry<T>>)
    requires Distinct(s)
    ensures multiset(Sort(s)) == multiset(s) && NewestFirst(Sort(s)) && |Sort(s)| == |s|
    ensures forall i, j :: 0 <= i < j < |s| ==> Sort(s)[i].time >= Sort(s)[j].time
  {
    if s != [] {
      SortSorts(s[1..]);
      var t := Sort(s[1..]);
      NotInTail(s, t);
      InsertSorts(s[0], t);
      hide Distinct, Insert, NewestFirst;
      HeadMultiset(s);
      InsertLength(s[0], t);
    }
  }

  lemma InsertLength<T>(e: Entry<T>, s: seq<Entry<T>>)
    ensures |Insert(e, s)| == |s| + 1
  {
  }

  lemma NotInTail<T>(s: seq<Entry<T>>, t: seq<Entry<T>>)
    requires Distinct(s) && s != [] && multiset(t) == multiset(s[1..])
    ensures forall i :: 0 <= i < |t| ==> t[i].id != s[0].id
  {
    forall i | 0 <= i < |t|
      ensures t[i].id != s[0].id
    {
      assert t[i] in multiset(t);
      assert t[i] in s[1..];
    }
  }

  /** In a list sorted newest first the rank is the index. */
  lemma SortedRank<T>(t: seq<Entry<T>>, i: nat, newer: Entry<T> -> bool)
    requires NewestFirst(t) && i < |t| && forall x :: x in t ==> newer(x) == Newer(x, t[i])
    ensures |Filter(t, newer)| == i
  {
    hide Filter;
    NewerTotal(t[i], t[i]);
    FilterAt(t, i, newer);
    FilterTrue(t[..i], newer);
    forall x | x in t[i + 1..]
      ensures !newer(x)
    {
      var j :| i < j < |t| && t[j] == x;
      NewerTotal(t[i], x);
    }
    FilterFalse(t[i + 1..], newer);
  }

  lemma {:induction false} FilterDistinct<T>(s: seq<Entry<T>>, f: Entry<T> -> bool)
    requires Distinct(s)
    ensures Distinct(Filter(s, f))
  {
    if s != [] {
      var k := |s| - 1;
      FilterDistinct(s[..k], f);
      var t := Filter(s[..k], f);
      forall i | 0 <= i < |t|
        ensures t[i].id != s[k].id
      {
        var j := FilterOrigin(s[..k], f, t[i]);
      }
    }
  }

  /** The sorted list of the eligible records holds each at its rank. */
  lemma SortedEligible<T>(s: seq<Entry<T>>, eligible: Entry<T> -> bool, e: Entry<T>) returns (i: nat)
    requires Distinct(s) && e in s && eligible(e)
    ensures var t := Sort(Filter(s, eligible));
            i < |t| && t[i] == e && NewestFirst(t) && NewerCount(s, e, eligible) == i
  {
    hide Filter, Sort;
    var chosen := Filter(s, eligible);
    var t := Sort(chosen);
    var newer := (x: Entry<T>) => Newer(x, e);
    FilterDistinct(s, eligible);
    SortSorts(chosen);
    FilterMembers(s, eligible);
    assert e in multiset(t);
    i :| 0 <= i < |t| && t[i] == e;
    SortedRank(t, i, newer);
    FilterCountPermuted(t, chosen, newer);
    FilterTwice(s, eligible, newer, x => eligible(x) && Newer(x, e));
  }

  /** Being among the first k of the sorted eligible records is having a rank
      below k. */
  lemma SortedPrefixIsKept<T>(s: seq<Entry<T>>, eligible: Entry<T> -> bool, k: nat, e: Entry<T>)
    requires Distinct(s) && e in s && eligible(e)
    ensures var t := Sort(Filter(s, eligible));
            (e in t[..if k < |t| then k else |t|]) <==> Keeps(s, e, eligible, k)
  {
    hide Filter, Sort;
    var t := Sort(Filter(s, eligible));
    var i := SortedEligible(s, eligible, e);
    var n := if k < |t| then k else |t|;
    if i < n {
      assert t[..n][i] == e;
    }
    if e in t[..n] {
      var j :| 0 <= j < n && t[j] == e;
      NewerTotal(e, e);
      assert j == i;
    }
  }

  // ---------------------------------------------------------------- the algorithms

  predicate Every<T>(e: Entry<T>) {
    true
  }

  lemma FilterEvery<T>(s: seq<Entry<T>>)
    ensures Filter(s, Every) == s
  {
    FilterTrue(s, Every);
  }

  /** The inner loop of rollSnapshots: the last record nothing is older than. */
  method FindOldest<T>(snaps: seq<Entry<T>>) returns (oldest: nat)
    requires Distinct(snaps) && snaps != []
    ensures oldest < |snaps| && Oldest(snaps, oldest, Every)
  {
    oldest := 0;
    var i := 1;
    while i < |snaps|
      invariant 0 <= oldest < i <= |snaps|
      invariant forall j :: 0 <= j < i && j != oldest ==> Newer(snaps[j], snaps[oldest])
    {
      NewerTotal(snaps[i], snaps[oldest]);
      if !Newer(snaps[i], snaps[oldest]) {
        forall j | 0 <= j < i && j != oldest
          ensures Newer(snaps[j], snaps[i])
        {
          NewerTransitive(snaps[j], snaps[oldest], snaps[i]);
        }
        oldest := i;
      }
      i := i + 1;
    }
  }

  /** rollSnapshots: delete the oldest until at most max are left. */
  method RollSnapshots<T>(list: seq<Entry<T>>, max: int) returns (snaps: seq<Entry<T>>)
    requires Distinct(list)
    ensures snaps == if max > 0 then Retain(list, Every, max) else list
  {
    snaps := list;
    while max > 0 && |snaps| > max
      invariant Distinct(snaps)
      invariant if max > 0 then Retain(snaps, Every, max) == Retain(list, Every, max) else snaps == list
      decreases |snaps|
    {
      var oldest := FindOldest(snaps);
      FilterEvery(snaps);
      RetainWithoutOldest(snaps, oldest, Every, max);
      snaps := snaps[..oldest] + snaps[oldest + 1..];
    }
    if max > 0 {
      FilterEvery(snaps);
      RetainAll(snaps, Every, max);
    }
  }

  function Ids<T>(s: seq<Entry<T>>): set<string> {
    set i | 0 <= i < |s| :: s[i].id
  }

  /** Among records with distinct ids, having a listed id is being listed. */
  lemma IdsListed<T>(s: seq<Entry<T>>, part: seq<Entry<T>>, e: Entry<T>)
    requires Distinct(s) && e in s && forall i :: 0 <= i < |part| ==> part[i] in s
    ensures e.id in Ids(part) <==> e in part
  {
    if e.id in Ids(part) {
      var i :| 0 <= i < |part| && part[i].id == e.id;
      var a :| 0 <= a < |s| && s[a] == part[i];
      var b :| 0 <= b < |s| && s[b] == e;
      assert a == b;
    }
  }

  /** Marking by id is the same as having a rank below k. */
  lemma MarkedIsKept<T>(s: seq<Entry<T>>, eligible: Entry<T> -> bool, k: nat, e: Entry<T>)
    requires Distinct(s) && e in s && eligible(e)
    ensures var t := Sort(Filter(s, eligible));
            (e.id in Ids(t[..if k < |t| then k else |t|])) <==> Keeps(s, e, eligible, k)
  {
    hide Sort, Filter, Keeps, Ids;
    var t := Sort(Filter(s, eligible));
    var part := t[..if k < |t| then k else |t|];
    SortedPrefixIsKept(s, eligible, k, e);
    forall i | 0 <= i < |part|
      ensures part[i] in s
    {
      SortedMember(s, eligible, i);
    }
    IdsListed(s, part, e);
  }

  lemma SortedMember<T>(s: seq<Entry<T>>, eligible: Entry<T> -> bool, i: nat)
    requires Distinct(s) && i < |Sort(Filter(s, eligible))|
    ensures Sort(Filter(s, eligible))[i] in s
  {
    var chosen := Filter(s, eligible);
    FilterDistinct(s, eligible);
    SortSorts(chosen);
    assert Sort(chosen)[i] in multiset(Sort(chosen));
    FilterMembers(s, eligible);
  }

  /** The loop that fills the keep set. */
  method Mark<T>(sorted: seq<Entry<T>>, max: nat) returns (keep: set<string>)
    ensures keep == Ids(sorted[..if max < |sorted| then max else |sorted|])
  {
    keep := {};
    var i := 0;
    while i < |sorted| && i < max
      invariant 0 <= i <= |sorted| && i <= max
      invariant keep == Ids(sorted[..i])
    {
      assert Ids(sorted[..i + 1]) == Ids(sorted[..i]) + {sorted[i].id} by {
        assert sorted[..i + 1][i] == sorted[i];
        assert forall j :: 0 <= j < i ==> sorted[..i + 1][j] == sorted[..i][j];
      }
      keep := keep + {sorted[i].id};
      i := i + 1;
    }
  }

  lemma FilterMore<T>(s: seq<T>, i: nat, keep: T -> bool)
    requires i < |s|
    ensures Filter(s[..i + 1], keep) == Filter(s[..i], keep) + (if keep(s[i]) then [s[i]] else [])
  {
    FilterPush(s[..i], s[i], keep);
    assert s[..i + 1] == s[..i] + [s[i]];
  }

  /** The loop that compacts the slice onto itself, dropping the eligible
      records that are not marked. */
  method Compact<T>(slice: array<Entry<T>>, eligible: Entry<T> -> bool, keep: set<string>, ghost kept: Entry<T> -> bool)
    returns (n: nat, removed: nat)
    requires forall i :: 0 <= i < slice.Length ==>
      kept(slice[i]) == (eligible(slice[i]) ==> slice[i].id in keep)
    modifies slice
    ensures n <= slice.Length && removed == slice.Length - n
    ensures slice[..n] == Filter(old(slice[..]), kept)
    ensures removed == 0 ==> slice[..] == old(slice[..])
  {
    ghost var s := slice[..];
    n, removed := 0, 0;
    var i := 0;
    assert Filter(s[..0], kept) == [];
    hide Filter;
    while i < slice.Length
      invariant 0 <= n <= i <= slice.Length && removed == i - n
      invariant forall j :: i <= j < slice.Length ==> slice[j] == s[j]
      invariant slice[..n] == Filter(s[..i], kept)
      invariant n == i ==> forall j :: 0 <= j < i ==> slice[j] == s[j]
    {
      var e := slice[i];
      FilterMore(s, i, kept);
      if eligible(e) && e.id !in keep {
        removed := removed + 1;
      } else {
        ghost var front := slice[..n];
        slice[n] := e;
        n := n + 1;
        assert slice[..n] == front + [e];
      }
      i := i + 1;
    }
    assert s[..i] == s;
  }

  lemma RetainEvery<T>(s: seq<Entry<T>>, k: nat)
    requires Distinct(s)
    ensures |Retain(s, Every, k)| == if |s| < k then |s| else k
  {
    RetainCount(s, Every, k);
    FilterEvery(s);
    FilterEvery(Retain(s, Every, k));
  }

  /** AuditService.Prune: sort a copy, mark the newest max, compact in place.
      The first n cells are the slice afterwards. */
  method Prune<T>(logs: array<Entry<T>>, max: int) returns (n: nat, removed: nat, noop: bool)
    requires Distinct(logs[..])
    modifies logs
    ensures n <= logs.Length && removed == logs.Length - n
    ensures logs[..n] == Retain(old(logs[..]), Every, if max < 0 then 0 else max)
    ensures noop <==> removed == 0
    ensures noop ==> logs[..] == old(logs[..])
  {
    hide Filter, Sort, Keeps;
    ghost var s := logs[..];
    FilterEvery(s);
    RetainEvery(s, if max < 0 then 0 else max);
    if max <= 0 {
      return 0, logs.Length, logs.Length == 0;
    }
    if logs.Length <= max {
      RetainAll(s, Every, max);
      return logs.Length, 0, true;
    }
    var sorted := Sort(logs[..]);
    var keep := Mark(sorted, max);
    forall i | 0 <= i < |s|
      ensures s[i].id in keep <==> Keeps(s, s[i], Every, max)
    {
      MarkedIsKept(s, Every, max, s[i]);
    }
    SortSorts(s);
    n, removed := Compact(logs, Every, keep, e => Keeps(s, e, Every, max));
    return n, |sorted| - max, false;
  }

  /** RemoteCommandService.PurgeTerminal: collect and sort the terminal commands,
      mark the newest maxKeep, compact in place. */
  method PurgeTerminal<T>(commands: array<Entry<T>>, terminal: Entry<T> -> bool, maxKeep: int)
    returns (r: Result<nat, Fault>, n: nat)
    requires Distinct(commands[..])
    modifies commands
    ensures n <= commands.Length
    ensures maxKeep < 0 ==> r == Err(Invalid) && n == commands.Length && commands[..] == old(commands[..])
    ensures maxKeep >= 0 ==> r == Ok(commands.Length - n)
    ensures maxKeep >= 0 ==> commands[..n] == Retain(old(commands[..]), terminal, maxKeep)
    ensures n == commands.Length ==> commands[..] == old(commands[..])
  {
    n := commands.Length;
    if maxKeep < 0 {
      return Err(Invalid), n;
    }
    ghost var s := commands[..];
    var sorted := Sort(Filter(commands[..], terminal));
    var keep := Mark(sorted, maxKeep);
    forall i | 0 <= i < |s|
      ensures (terminal(s[i]) ==> s[i].id in keep) <==> Keeps(s, s[i], terminal, maxKeep)
    {
      if terminal(s[i]) {
        MarkedIsKept(s, terminal, maxKeep, s[i]);
      }
    }
    var removed;
    n, removed := Compact(commands, terminal, keep, e => Keeps(s, e, terminal, maxKeep));
    r := Ok(removed);
  }
}
