/** Recency order: what moving to the front and removing do to a list of distinct keys. */
module Recency {

  ghost predicate Unique<K(!new)>(s: seq<K>) {
    forall i, j :: 0 <= i < j < |s| ==> s[i] != s[j]
  }

  /** The list without k, the rest in the same order. */
  function Without<K(==)>(s: seq<K>, k: K): seq<K> {
    if s == [] then []
    else if s[0] == k then Without(s[1..], k)
    else [s[0]] + Without(s[1..], k)
  }

  lemma {:induction false} WithoutMembers<K(!new)>(s: seq<K>, k: K)
    ensures forall x :: x in Without(s, k) <==> x in s && x != k
    ensures k !in s ==> Without(s, k) == s
  {
    if s != [] {
      WithoutMembers(s[1..], k);
      assert s == [s[0]] + s[1..];
    }
  }

  /** Removing keeps the relative order of what stays. */
  lemma {:induction false} WithoutKeepsOrder<K(!new)>(s: seq<K>, k: K, i: nat, j: nat) returns (a: nat, b: nat)
    requires i < j < |Without(s, k)|
    ensures a < b < |s| && s[a] == Without(s, k)[i] && s[b] == Without(s, k)[j]
  {
    if s[0] == k {
      a, b := WithoutKeepsOrder(s[1..], k, i, j);
      a, b := a + 1, b + 1;
    } else if i > 0 {
      a, b := WithoutKeepsOrder(s[1..], k, i - 1, j - 1);
      a, b := a + 1, b + 1;
    } else {
      WithoutMembers(s[1..], k);
      assert Without(s, k)[j] in Without(s[1..], k);
      a := 0;
      b :| 1 <= b < |s| && s[b] == Without(s, k)[j];
    }
  }

  lemma WithoutUnique<K(!new)>(s: seq<K>, k: K)
    requires Unique(s)
    ensures Unique(Without(s, k)) && Unique([k] + Without(s, k))
  {
    WithoutMembers(s, k);
    forall i, j | 0 <= i < j < |Without(s, k)|
      ensures Without(s, k)[i] != Without(s, k)[j]
    {
      var a, b := WithoutKeepsOrder(s, k, i, j);
    }
  }

  lemma {:induction false} WithoutLength<K(!new)>(s: seq<K>, k: K)
    requires Unique(s) && k in s
    ensures |Without(s, k)| == |s| - 1
  {
    assert s == [s[0]] + s[1..];
    if s[0] == k {
      WithoutMembers(s[1..], k);
    } else {
      WithoutLength(s[1..], k);
    }
  }

  ghost function Members<K(!new)>(s: seq<K>): set<K> {
    set k | k in s
  }

  /** Distinct keys are as many as their set. */
  lemma {:induction false} UniqueSize<K(!new)>(s: seq<K>)
    requires Unique(s)
    ensures |Members(s)| == |s|
  {
    if s != [] {
      UniqueSize(s[1..]);
      assert Members(s) == {s[0]} + Members(s[1..]);
    }
  }

  lemma UniqueSnoc<K(!new)>(s: seq<K>, k: K)
    requires Unique(s)
    ensures Unique(s + [k]) <==> k !in s
  {
    if k in s {
      var i :| 0 <= i < |s| && s[i] == k;
      assert (s + [k])[i] == (s + [k])[|s|];
    }
  }
}
