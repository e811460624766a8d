/** Facts about duplicate-free sequences and concatenation that the models share. */
module Sequences {

  ghost predicate NoDup<T>(s: seq<T>) {
    forall i, j :: 0 <= i < j < |s| ==> s[i] != s[j]
  }

  ghost function Elements<T>(s: seq<T>): set<T> {
    set x | x in s
  }

  /** A duplicate-free sequence is as long as the set of its elements. */
  lemma {:induction false} NoDupLength<T>(s: seq<T>)
    requires NoDup(s)
    ensures |Elements(s)| == |s|
  {
    if s != [] {
      var n := |s| - 1;
      NoDupLength(s[..n]);
      ElementsSnoc(s, n);
      assert s[n] !in s[..n];
    }
  }

  lemma ElementsSnoc<T>(s: seq<T>, n: nat)
    requires |s| == n + 1
    ensures Elements(s) == Elements(s[..n]) + {s[n]}
  {
    assert s == s[..n] + [s[n]];
  }

  lemma SubsetLength<T>(a: set<T>, b: set<T>)
    requires a <= b
    ensures |a| <= |b|
    ensures |a| == |b| ==> a == b
  {
    assert b == a + (b - a);
  }

  /** The sequence with the first occurrence of `x` left out. */
  function Without<T(==)>(s: seq<T>, x: T): (r: seq<T>) {
    if s == [] then [] else if s[0] == x then s[1..] else [s[0]] + Without(s[1..], x)
  }

  lemma {:induction false} WithoutFacts<T>(s: seq<T>, x: T)
    requires NoDup(s)
    ensures NoDup(Without(s, x))
    ensures forall y :: y in Without(s, x) <==> y in s && y != x
    ensures |Without(s, x)| == if x in s then |s| - 1 else |s|
    ensures x !in s ==> Without(s, x) == s
  {
    if s != [] && s[0] != x {
      var rest := Without(s[1..], x);
      assert s == [s[0]] + s[1..];
      WithoutFacts(s[1..], x);
      assert s[0] !in rest;
      assert forall i :: 0 <= i < |rest| ==> ([s[0]] + rest)[i + 1] == rest[i];
    } else if s != [] {
      assert s == [s[0]] + s[1..];
    }
  }

  /** All the groups end to end. */
  function Flatten<T>(groups: seq<seq<T>>): (r: seq<T>) {
    if groups == [] then [] else Flatten(groups[..|groups| - 1]) + groups[|groups| - 1]
  }

  lemma {:induction false} FlattenAppend<T>(a: seq<seq<T>>, b: seq<seq<T>>)
    ensures Flatten(a + b) == Flatten(a) + Flatten(b)
  {
    if b == [] {
      assert a + b == a;
    } else {
      var init := b[..|b| - 1];
      assert (a + b)[..|a + b| - 1] == a + init;
      FlattenAppend(a, init);
    }
  }
}
