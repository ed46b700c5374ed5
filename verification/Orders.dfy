/** Sorting by a comparison, and enumerating a finite set in order. */
module Orders {
  import opened Prelude

  ghost predicate TotalPreorder<T(!new)>(leq: (T, T) -> bool) {
    && (forall x, y :: leq(x, y) || leq(y, x))
    && (forall x, y, z :: leq(x, y) && leq(y, z) ==> leq(x, z))
  }

  ghost predicate TotalOrder<T(!new)>(leq: (T, T) -> bool) {
    && TotalPreorder(leq)
    && (forall x, y :: leq(x, y) && leq(y, x) ==> x == y)
  }

  ghost predicate Sorted<T>(s: seq<T>, leq: (T, T) -> bool) {
    forall i, j :: 0 <= i < j < |s| ==> leq(s[i], s[j])
  }

  /** The comparison never ties two different elements of `s`. */
  ghost predicate Separates<T>(leq: (T, T) -> bool, s: seq<T>) {
    forall x, y :: x in s && y in s && leq(x, y) && leq(y, x) ==> x == y
  }

  function Insert<T>(x: T, s: seq<T>, leq: (T, T) -> bool): (r: seq<T>)
    ensures multiset(r) == multiset{x} + multiset(s)
  {
    if s == [] then [x]
    else if leq(x, s[0]) then [x] + s
    else
      assert s == [s[0]] + s[1..];
      [s[0]] + Insert(x, s[1..], leq)
  }

  /** A stable sort. */
  function SortBy<T>(s: seq<T>, leq: (T, T) -> bool): (r: seq<T>)
    ensures multiset(r) == multiset(s)
  {
    if s == [] then [] else
      assert s == [s[0]] + s[1..];
      Insert(s[0], SortBy(s[1..], leq), leq)
  }

  lemma {:induction false} InsertSorted<T(!new)>(x: T, s: seq<T>, leq: (T, T) -> bool)
    requires TotalPreorder(leq) && Sorted(s, leq)
    ensures Sorted(Insert(x, s, leq), leq)
  {
    if s != [] && !leq(x, s[0]) {
      InsertSorted(x, s[1..], leq);
      var tail := Insert(x, s[1..], leq);
      forall k | 0 <= k < |tail|
        ensures leq(s[0], tail[k])
      {
        assert tail[k] in multiset(tail);
        assert tail[k] == x || tail[k] in s[1..];
      }
    }
  }

  lemma {:induction false} SortBySorted<T(!new)>(s: seq<T>, leq: (T, T) -> bool)
    requires TotalPreorder(leq)
    ensures Sorted(SortBy(s, leq), leq)
  {
    if s != [] {
      SortBySorted(s[1..], leq);
      InsertSorted(s[0], SortBy(s[1..], leq), leq);
    }
  }

  /** Two sorted arrangements of the same elements are the same sequence. */
  lemma {:induction false} SortedUnique<T(!new)>(a: seq<T>, b: seq<T>, leq: (T, T) -> bool)
    requires TotalPreorder(leq) && Separates(leq, a)
    requires Sorted(a, leq) && Sorted(b, leq)
    requires multiset(a) == multiset(b)
    ensures a == b
  {
    assert |multiset(a)| == |multiset(b)|;
    if a != [] {
      SameHead(a, b, leq);
      assert a == [a[0]] + a[1..] && b == [b[0]] + b[1..];
      assert multiset(a[1..]) == multiset(a) - multiset{a[0]};
      assert multiset(b[1..]) == multiset(b) - multiset{b[0]};
      assert Sorted(a[1..], leq) && Sorted(b[1..], leq) && Separates(leq, a[1..]);
      SortedUnique(a[1..], b[1..], leq);
    }
  }

  lemma SameHead<T(!new)>(a: seq<T>, b: seq<T>, leq: (T, T) -> bool)
    requires TotalPreorder(leq) && Separates(leq, a) && a != [] && b != []
    requires Sorted(a, leq) && Sorted(b, leq)
    requires multiset(a) == multiset(b)
    ensures a[0] == b[0]
  {
    MultisetMember(a, b, a[0]);
    MultisetMember(a, b, b[0]);
    var i :| 0 <= i < |b| && b[i] == a[0];
    var j :| 0 <= j < |a| && a[j] == b[0];
    assert leq(b[0], b[i]) && leq(a[0], a[j]);
  }

  /** Sorting forgets the order its input arrived in. */
  lemma SortByPermutation<T(!new)>(a: seq<T>, b: seq<T>, leq: (T, T) -> bool)
    requires TotalPreorder(leq) && Separates(leq, a)
    requires multiset(a) == multiset(b)
    ensures SortBy(a, leq) == SortBy(b, leq)
  {
    SortBySorted(a, leq);
    SortBySorted(b, leq);
    forall x | x in SortBy(a, leq)
      ensures x in a
    {
      MultisetMember(SortBy(a, leq), a, x);
    }
    SortedUnique(SortBy(a, leq), SortBy(b, leq), leq);
  }

  lemma {:induction false} LeastExists<T(!new)>(s: set<T>, leq: (T, T) -> bool)
    requires TotalOrder(leq) && s != {}
    ensures exists x :: x in s && forall y :: y in s ==> leq(x, y)
  {
    var z :| z in s;
    if s == {z} {
      assert forall y :: y in s ==> leq(z, y);
    } else {
      LeastExists(s - {z}, leq);
      var x :| x in s - {z} && forall y :: y in s - {z} ==> leq(x, y);
      var least := if leq(x, z) then x else z;
      assert forall y :: y in s ==> leq(least, y) by {
        forall y | y in s
          ensures leq(least, y)
        {
          assert y == z || y in s - {z};
        }
      }
    }
  }

  /** The elements of a finite set in ascending order. */
  function Enumerate<T(==, !new)>(s: set<T>, leq: (T, T) -> bool): (r: seq<T>)
    requires TotalOrder(leq)
    ensures forall x :: x in r <==> x in s
  {
    if s == {} then [] else
      LeastExists(s, leq);
      var x :| x in s && forall y :: y in s ==> leq(x, y);
      [x] + Enumerate(s - {x}, leq)
  }

  lemma {:induction false} EnumerateSorted<T(!new)>(s: set<T>, leq: (T, T) -> bool)
    requires TotalOrder(leq)
    ensures Sorted(Enumerate(s, leq), leq) && Distinct(Enumerate(s, leq)) && |Enumerate(s, leq)| == |s|
  {
    if s != {} {
      LeastExists(s, leq);
      var x :| x in s && forall y :: y in s ==> leq(x, y);
      EnumerateSorted(s - {x}, leq);
      assert Enumerate(s, leq) == [x] + Enumerate(s - {x}, leq);
    }
  }

  predicate NatLeq(a: nat, b: nat) {
    a <= b
  }

  function NatOrder(): (nat, nat) -> bool {
    (a: nat, b: nat) => NatLeq(a, b)
  }

  lemma NatOrderTotal()
    ensures TotalOrder(NatOrder())
  {
  }

  function Ascending(s: set<nat>): (r: seq<nat>)
    ensures forall x :: x in r <==> x in s
  {
    NatOrderTotal();
    Enumerate(s, NatOrder())
  }

  lemma AscendingSorted(s: set<nat>)
    ensures Sorted(Ascending(s), NatOrder()) && Distinct(Ascending(s)) && |Ascending(s)| == |s|
  {
    NatOrderTotal();
    EnumerateSorted(s, NatOrder());
  }
}
