/** Insertion into a sequence, splitting off the last element, regrouping, and
    increasing sequences of positions. */
module Lists {
  function InsertAt<T>(r: seq<T>, i: nat, x: T): (s: seq<T>)
    requires i <= |r|
    ensures |s| == |r| + 1
    ensures forall j :: 0 <= j < |s| ==> s[j] == if j < i then r[j] else if j == i then x else r[j - 1]
    ensures multiset(s) == multiset(r) + multiset{x}
  {
    assert r == r[..i] + r[i..];
    r[..i] + [x] + r[i..]
  }

  lemma SplitLast<T>(s: seq<T>)
    requires |s| > 0
    ensures s == s[..|s| - 1] + [s[|s| - 1]]
  {
  }

  lemma Regroup<T>(a: seq<T>, b: seq<T>, c: seq<T>)
    ensures a + b + c == a + (b + c)
  {
  }

  ghost predicate Increasing(vs: seq<nat>) {
    forall i, j :: 0 <= i < j < |vs| ==> vs[i] < vs[j]
  }

  lemma IncreasingFirst(i: nat, rest: seq<nat>)
    requires Increasing(rest) && forall x :: x in rest ==> i < x
    ensures Increasing([i] + rest)
  {
    assert forall k :: 0 <= k < |rest| ==> rest[k] in rest;
  }

  lemma IncreasingLast(ks: seq<nat>, k: nat)
    requires Increasing(ks) && forall x :: x in ks ==> x < k
    ensures Increasing(ks + [k])
  {
    assert forall i :: 0 <= i < |ks| ==> ks[i] in ks;
  }
}
