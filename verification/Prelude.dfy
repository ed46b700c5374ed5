/** Values shared by every module: optional values, results, and finite-sequence facts. */
module Prelude {

  datatype Option<+T> = None | Some(value: T)

  datatype Result<+T, +E> = Ok(value: T) | Err(error: E)

  /** The elements of a sequence. */
  function Elements<T>(s: seq<T>): set<T> {
    set x | x in s
  }

  ghost predicate Distinct<T>(s: seq<T>) {
    forall i, j :: 0 <= i < j < |s| ==> s[i] != s[j]
  }

  /** Joins a sequence of sequences end to end. */
  function Flatten<T>(s: seq<seq<T>>): seq<T> {
    if s == [] then [] else s[0] + Flatten(s[1..])
  }

  lemma {:induction false} FlattenAppend<T>(a: seq<seq<T>>, b: seq<seq<T>>)
    ensures Flatten(a + b) == Flatten(a) + Flatten(b)
  {
    if a == [] {
      assert a + b == b;
    } else {
      assert (a + b)[1..] == a[1..] + b;
      FlattenAppend(a[1..], b);
    }
  }

  /** Taking a middle element out of a sequence removes one occurrence of it. */
  lemma MultisetRemove<T>(s: seq<T>, i: nat)
    requires i < |s|
    ensures multiset(s[..i] + s[i + 1..]) == multiset(s) - multiset{s[i]}
  {
    assert s == s[..i] + [s[i]] + s[i + 1..];
  }

  lemma MultisetMember<T>(a: seq<T>, b: seq<T>, x: T)
    requires multiset(a) == multiset(b)
    ensures x in a <==> x in b
  {
    assert x in a <==> x in multiset(a);
    assert x in b <==> x in multiset(b);
  }

  lemma {:induction false} DistinctMultiset<T>(s: seq<T>)
    ensures Distinct(s) <==> forall x :: multiset(s)[x] <= 1
  {
    if Distinct(s) {
      forall x
        ensures multiset(s)[x] <= 1
      {
        DistinctCount(s, x);
      }
    } else {
      var i, j :| 0 <= i < j < |s| && s[i] == s[j];
      assert s == s[..i] + [s[i]] + s[i + 1..j] + [s[j]] + s[j + 1..];
      assert multiset(s)[s[i]] >= 2;
    }
  }

  lemma {:induction false} DistinctCount<T>(s: seq<T>, x: T)
    requires Distinct(s)
    ensures multiset(s)[x] <= 1
  {
    if s != [] {
      assert s == [s[0]] + s[1..];
      DistinctCount(s[1..], x);
      assert s[0] !in s[1..];
    }
  }

  lemma DistinctPermutation<T>(a: seq<T>, b: seq<T>)
    requires multiset(a) == multiset(b) && Distinct(a)
    ensures Distinct(b)
  {
    DistinctMultiset(a);
    DistinctMultiset(b);
  }

  /** Two arrangements without repetition of the same members are permutations of each other. */
  lemma SameMembersPermute<T>(a: seq<T>, b: seq<T>)
    requires Distinct(a) && Distinct(b) && forall x :: x in a <==> x in b
    ensures multiset(a) == multiset(b)
  {
    forall x
      ensures multiset(a)[x] == multiset(b)[x]
    {
      DistinctCount(a, x);
      DistinctCount(b, x);
      assert x in multiset(a) <==> x in a;
      assert x in multiset(b) <==> x in b;
    }
  }

  /** Replaces each element by a list and joins the lists in order. */
  function FlatMap<T, U>(s: seq<T>, f: T -> seq<U>): seq<U> {
    if s == [] then [] else f(s[0]) + FlatMap(s[1..], f)
  }

  lemma {:induction false} FlatMapAppend<T, U>(a: seq<T>, b: seq<T>, f: T -> seq<U>)
    ensures FlatMap(a + b, f) == FlatMap(a, f) + FlatMap(b, f)
  {
    if a == [] {
      assert a + b == b;
    } else {
      assert (a + b)[1..] == a[1..] + b;
      FlatMapAppend(a[1..], b, f);
    }
  }

  /** Keeping each element at most once keeps no element more often than it was there. */
  lemma {:induction false} FlatMapAtMost<T(!new)>(s: seq<T>, f: T -> seq<T>)
    requires forall x :: f(x) == [x] || f(x) == []
    ensures multiset(FlatMap(s, f)) <= multiset(s)
  {
    if s != [] {
      FlatMapAtMost(s[1..], f);
      assert s == [s[0]] + s[1..];
    }
  }

  lemma FlatMapTaken<T, U>(s: seq<T>, i: nat, f: T -> seq<U>)
    requires i < |s|
    ensures multiset(FlatMap(s, f)) == multiset(f(s[i])) + multiset(FlatMap(s[..i] + s[i + 1..], f))
  {
    assert s == s[..i] + s[i..];
    FlatMapAppend(s[..i], s[i..], f);
    FlatMapAppend(s[..i], s[i + 1..], f);
    assert s[i..][1..] == s[i + 1..];
  }

  /** Rearranging the input rearranges the output. */
  lemma {:induction false} FlatMapPermutation<T, U>(a: seq<T>, b: seq<T>, f: T -> seq<U>)
    requires multiset(a) == multiset(b)
    ensures multiset(FlatMap(a, f)) == multiset(FlatMap(b, f))
  {
    if a == [] {
      assert |multiset(b)| == 0;
    } else {
      MultisetMember(a, b, a[0]);
      var i :| 0 <= i < |b| && b[i] == a[0];
      MultisetRemove(a, 0);
      MultisetRemove(b, i);
      assert a[..0] + a[1..] == a[1..];
      FlatMapPermutation(a[1..], b[..i] + b[i + 1..], f);
      FlatMapTaken(b, i, f);
    }
  }
}
