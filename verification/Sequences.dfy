/** Sequences as collections. */
module Sequences {

  function Removed<T>(s: seq<T>, i: nat): seq<T>
    requires i < |s|
  {
    s[..i] + s[i + 1..]
  }

  lemma RemovedBag<T>(s: seq<T>, i: nat)
    requires i < |s|
    ensures multiset(Removed(s, i)) == multiset(s) - multiset{s[i]}
  {
    assert s == s[..i] + [s[i]] + s[i + 1..];
    assert multiset(s) == multiset(s[..i]) + multiset{s[i]} + multiset(s[i + 1..]);
    assert multiset(Removed(s, i)) == multiset(s[..i]) + multiset(s[i + 1..]);
  }

  lemma RemovedBeforeLast<T>(s: seq<T>, i: nat)
    requires i < |s| - 1
    ensures Removed(s, i)[..|s| - 2] == Removed(s[..|s| - 1], i) && Removed(s, i)[|s| - 2] == s[|s| - 1]
  {
    assert Removed(s, i) == Removed(s[..|s| - 1], i) + [s[|s| - 1]];
  }

  /** Where the last element of a sequence is in another with the same elements. */
  lemma MatchLast<T>(p: seq<T>, q: seq<T>) returns (i: nat)
    requires multiset(p) == multiset(q) && p != []
    ensures i < |q| && q[i] == p[|p| - 1]
    ensures multiset(p[..|p| - 1]) == multiset(Removed(q, i))
  {
    var n := |p| - 1;
    assert p[n] in multiset(p);
    i :| 0 <= i < |q| && q[i] == p[n];
    RemovedBag(q, i);
    RemovedBag(p, n);
    assert Removed(p, n) == p[..n];
  }
}
