/** Facts about finite sequences shared by the models: removing a set of elements,
    duplicate-freedom, suffixes and subsequences. */
module Sequences {

  ghost predicate NoDup<T>(s: seq<T>) {
    s == [] || (s[0] !in s[1..] && NoDup(s[1..]))
  }

  lemma ConcatAssociates<T>(a: seq<T>, b: seq<T>, c: seq<T>)
    ensures a + b + c == a + (b + c)
  {
  }

  lemma SplitAt<T>(s: seq<T>, n: nat)
    requires n <= |s|
    ensures s == s[..n] + s[n..]
  {
  }

  lemma ConcatSuffix<T>(a: seq<T>, b: seq<T>)
    ensures a <= a + b && (a + b)[|a|..] == b
  {
  }

  /** A suffix that starts inside `a` keeps all of what is appended to `a`. */
  lemma SuffixConcat<T>(a: seq<T>, b: seq<T>, from: nat)
    requires from <= |a|
    ensures (a + b)[from..] == a[from..] + b
  {
  }

  function Elems<T>(s: seq<T>): set<T> {
    set x | x in s
  }

  /** `s` with every occurrence of an element of `dead` taken out. */
  function Without<T(==,!new)>(s: seq<T>, dead: set<T>): (r: seq<T>)
    ensures forall x :: x in r <==> x in s && x !in dead
    ensures |r| <= |s|
  {
    if s == [] then []
    else if s[0] in dead then Without(s[1..], dead)
    else [s[0]] + Without(s[1..], dead)
  }

  lemma {:induction false} WithoutConcat<T(!new)>(s: seq<T>, t: seq<T>, dead: set<T>)
    ensures Without(s + t, dead) == Without(s, dead) + Without(t, dead)
  {
    if s == [] {
      assert s + t == t;
    } else {
      assert (s + t)[1..] == s[1..] + t;
      WithoutConcat(s[1..], t, dead);
    }
  }

  lemma {:induction false} WithoutTwice<T(!new)>(s: seq<T>, a: set<T>, b: set<T>)
    ensures Without(Without(s, a), b) == Without(s, a + b)
  {
    if s != [] {
      WithoutTwice(s[1..], a, b);
      var kept := Without(s[1..], a);
      assert ([s[0]] + kept)[1..] == kept;
    }
  }

  lemma {:induction false} WithoutNothing<T(!new)>(s: seq<T>, dead: set<T>)
    requires forall x :: x in s ==> x !in dead
    ensures Without(s, dead) == s
  {
    if s != [] {
      assert forall x :: x in s[1..] ==> x in s;
      WithoutNothing(s[1..], dead);
    }
  }

  lemma {:induction false} WithoutKeepsNoDup<T(!new)>(s: seq<T>, dead: set<T>)
    requires NoDup(s)
    ensures NoDup(Without(s, dead))
  {
    if s != [] {
      assert forall x :: x in s[1..] ==> x != s[0];
      WithoutKeepsNoDup(s[1..], dead);
      var kept := Without(s[1..], dead);
      assert ([s[0]] + kept)[1..] == kept;
    }
  }

  /** Taking one listed element out of a duplicate-free list shortens it by exactly one. */
  lemma {:induction false} WithoutOneLength<T(!new)>(s: seq<T>, x: T)
    requires NoDup(s) && x in s
    ensures |Without(s, {x})| == |s| - 1
  {
    if s[0] == x {
      assert forall y :: y in s[1..] ==> y != x;
      WithoutNothing(s[1..], {x});
    } else {
      WithoutOneLength(s[1..], x);
    }
  }

  /** Taking out the element at one position of a duplicate-free list. */
  lemma {:induction false} WithoutAt<T(!new)>(s: seq<T>, i: nat)
    requires NoDup(s) && i < |s|
    ensures Without(s, {s[i]}) == s[..i] + s[i + 1..]
  {
    if i == 0 {
      WithoutNothing(s[1..], {s[0]});
    } else {
      assert s[i] == s[1..][i - 1] && s[0] != s[i];
      WithoutAt(s[1..], i - 1);
      assert s[..i] + s[i + 1..] == [s[0]] + (s[1..][..i - 1] + s[1..][i..]);
    }
  }

  lemma {:induction false} NoDupAppend<T>(s: seq<T>, x: T)
    requires NoDup(s) && x !in s
    ensures NoDup(s + [x])
  {
    if s != [] {
      NoDupAppend(s[1..], x);
      assert (s + [x])[1..] == s[1..] + [x];
    }
  }

  lemma {:induction false} NoDupCardinality<T>(s: seq<T>)
    requires NoDup(s)
    ensures |Elems(s)| == |s|
  {
    if s != [] {
      var rest := s[1..];
      NoDupCardinality(rest);
      assert s == [s[0]] + rest;
      assert s[0] !in Elems(rest);
      assert Elems(s) == {s[0]} + Elems(rest);
    }
  }
}
