/** Sequences with one element taken out. */
module Sequences {

  function Without<T>(s: seq<T>, i: nat): seq<T>
    requires i < |s|
  {
    s[..i] + s[i + 1..]
  }

  lemma WithoutMembers<T>(s: seq<T>, i: nat)
    requires i < |s|
    ensures forall k :: 0 <= k < |Without(s, i)| ==> Without(s, i)[k] in s
    ensures forall k :: 0 <= k < |s| && k != i ==> s[k] in Without(s, i)
  {
    var w := Without(s, i);
    forall k | 0 <= k < |s| && k != i
      ensures s[k] in w
    {
      assert w[if k < i then k else k - 1] == s[k];
    }
  }

  lemma WithoutLength<T>(s: seq<T>, i: nat)
    requires i < |s|
    ensures |Without(s, i)| == |s| - 1
  {
  }

  /** Everything in the rest stands at another place of the original. */
  lemma WithoutMember<T>(s: seq<T>, o: nat, x: T) returns (i: nat)
    requires o < |s| && x in Without(s, o)
    ensures i < |s| && i != o && s[i] == x
  {
    var rest := Without(s, o);
    var j :| 0 <= j < |rest| && rest[j] == x;
    i := if j < o then j else j + 1;
  }

  lemma WithoutMultiset<T>(s: seq<T>, i: nat)
    requires i < |s|
    ensures multiset(Without(s, i)) == multiset(s) - multiset{s[i]}
  {
    var (front, back) := (s[..i], s[i + 1..]);
    assert s == front + [s[i]] + back;
    assert multiset(s) == multiset(front) + multiset{s[i]} + multiset(back);
  }

  lemma HeadMultiset<T>(s: seq<T>)
    requires s != []
    ensures multiset(s) == multiset(s[1..]) + multiset{s[0]}
  {
    assert s == [s[0]] + s[1..];
  }
}
