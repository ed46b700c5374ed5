/** Editing a tag list by target: one tag kept or made per selected target, everything else untouched. */
module TagEdits {
  import opened Prelude

  /** What a list edit does: which target a tag names, which targets are selected, whether
      their tags stay, what becomes of the first tag of a target, and the tag made for a missing one. */
  datatype Edit<!T, !K(==)> = Edit(target: T -> Option<K>, selected: seq<K>, keeps: bool, keep: T -> T, make: K -> T)

  predicate Hits<T, K>(e: Edit<T, K>, t: T) {
    e.target(t).Some? && e.target(t).value in e.selected
  }

  predicate Names<T, K(==)>(e: Edit<T, K>, t: T, k: K) {
    e.target(t) == Some(k)
  }

  function Found<T, K(==)>(e: Edit<T, K>, source: seq<T>): set<K> {
    if source == [] then {}
    else
      var last, before := source[|source| - 1], Found(e, source[..|source| - 1]);
      if Hits(e, last) then before + {e.target(last).value} else before
  }

  /** The source with every selected target reduced to its first tag, or to none. */
  function Reduced<T, K(==)>(e: Edit<T, K>, source: seq<T>): seq<T> {
    if source == [] then []
    else
      var last, before := source[|source| - 1], source[..|source| - 1];
      if !Hits(e, last) then Reduced(e, before) + [last]
      else if !e.keeps || e.target(last).value in Found(e, before) then Reduced(e, before)
      else Reduced(e, before) + [e.keep(last)]
  }

  /** The tags made for the first `n` selected targets that were not found. */
  function Made<T, K(==)>(e: Edit<T, K>, found: set<K>, n: nat): seq<T>
    requires n <= |e.selected|
  {
    if n == 0 then []
    else if e.selected[n - 1] in found || e.selected[n - 1] in e.selected[..n - 1] then Made(e, found, n - 1)
    else Made(e, found, n - 1) + [e.make(e.selected[n - 1])]
  }

  function Applied<T, K(==)>(e: Edit<T, K>, source: seq<T>): seq<T> {
    Reduced(e, source) + if e.keeps then Made(e, Found(e, source), |e.selected|) else []
  }

  // ----- The loop -----

  method Apply<T, K(==)>(e: Edit<T, K>, source: seq<T>) returns (tags: seq<T>)
    ensures tags == Applied(e, source)
  {
    var found: set<K> := {};
    tags := [];
    for i := 0 to |source|
      invariant found == Found(e, source[..i]) && tags == Reduced(e, source[..i])
    {
      assert source[..i + 1][..i] == source[..i];
      var tag := source[i];
      if !Hits(e, tag) {
        tags := tags + [tag];
      } else if e.target(tag).value !in found {
        found := found + {e.target(tag).value};
        if e.keeps {
          tags := tags + [e.keep(tag)];
        }
      }
    }
    assert source[..|source|] == source;
    if e.keeps {
      ghost var reduced, start := tags, found;
      for i := 0 to |e.selected|
        invariant tags == reduced + Made(e, start, i)
        invariant forall k :: k in found <==> k in start || k in e.selected[..i]
      {
        var k := e.selected[i];
        assert e.selected[..i + 1] == e.selected[..i] + [k];
        if k !in found {
          found := found + {k};
          tags := tags + [e.make(k)];
        }
      }
    }
  }

  // ----- What an edit keeps -----

  /** Keeping or making a tag leaves it naming its target, and keeping it again changes nothing. */
  ghost predicate Lawful<T(!new), K(!new)>(e: Edit<T, K>) {
    && (forall t :: Hits(e, t) ==> e.target(e.keep(t)) == e.target(t) && e.keep(e.keep(t)) == e.keep(t))
    && (forall k :: k in e.selected ==> e.target(e.make(k)) == Some(k) && e.keep(e.make(k)) == e.make(k))
  }

  function Others<T, K>(e: Edit<T, K>, s: seq<T>): seq<T> {
    if s == [] then []
    else Others(e, s[..|s| - 1]) + if Hits(e, s[|s| - 1]) then [] else [s[|s| - 1]]
  }

  function Count<T, K(==)>(e: Edit<T, K>, s: seq<T>, k: K): nat {
    if s == [] then 0 else Count(e, s[..|s| - 1], k) + if Names(e, s[|s| - 1], k) then 1 else 0
  }

  lemma {:induction false} OthersAppend<T, K>(e: Edit<T, K>, a: seq<T>, b: seq<T>)
    ensures Others(e, a + b) == Others(e, a) + Others(e, b)
  {
    if b == [] {
      assert a + b == a;
    } else {
      assert (a + b)[..|a + b| - 1] == a + b[..|b| - 1];
      OthersAppend(e, a, b[..|b| - 1]);
    }
  }

  lemma {:induction false} CountAppend<T, K>(e: Edit<T, K>, a: seq<T>, b: seq<T>, k: K)
    ensures Count(e, a + b, k) == Count(e, a, k) + Count(e, b, k)
  {
    if b == [] {
      assert a + b == a;
    } else {
      assert (a + b)[..|a + b| - 1] == a + b[..|b| - 1];
      CountAppend(e, a, b[..|b| - 1], k);
    }
  }

  lemma {:induction false} FoundMeaning<T, K>(e: Edit<T, K>, s: seq<T>, k: K)
    ensures k in Found(e, s) <==> k in e.selected && exists t :: t in s && Names(e, t, k)
  {
    if s != [] {
      var n := |s| - 1;
      FoundMeaning(e, s[..n], k);
      assert s == s[..n] + [s[n]] && s[n] in s;
      assert (exists t :: t in s && Names(e, t, k))
             <==> (exists t :: t in s[..n] && Names(e, t, k)) || Names(e, s[n], k);
    }
  }

  lemma {:induction false} ReducedOthers<T(!new), K(!new)>(e: Edit<T, K>, s: seq<T>)
    requires Lawful(e)
    ensures Others(e, Reduced(e, s)) == Others(e, s)
  {
    if s != [] {
      var n := |s| - 1;
      ReducedOthers(e, s[..n]);
      var kept := if !Hits(e, s[n]) then [s[n]] else [e.keep(s[n])];
      OthersAppend(e, Reduced(e, s[..n]), kept);
    }
  }

  lemma {:induction false} MadeOthers<T(!new), K(!new)>(e: Edit<T, K>, found: set<K>, n: nat)
    requires Lawful(e) && n <= |e.selected|
    ensures Others(e, Made(e, found, n)) == []
  {
    if n > 0 {
      MadeOthers(e, found, n - 1);
      OthersAppend(e, Made(e, found, n - 1), [e.make(e.selected[n - 1])]);
    }
  }

  /** Tags of no selected target are kept, in order. */
  lemma KeepsOthers<T(!new), K(!new)>(e: Edit<T, K>, s: seq<T>)
    requires Lawful(e)
    ensures Others(e, Applied(e, s)) == Others(e, s)
  {
    ReducedOthers(e, s);
    MadeOthers(e, Found(e, s), |e.selected|);
    OthersAppend(e, Reduced(e, s), if e.keeps then Made(e, Found(e, s), |e.selected|) else []);
  }

  lemma {:induction false} ReducedCount<T(!new), K(!new)>(e: Edit<T, K>, s: seq<T>, k: K)
    requires Lawful(e) && k in e.selected
    ensures Count(e, Reduced(e, s), k) == if e.keeps && k in Found(e, s) then 1 else 0
  {
    if s != [] {
      var n := |s| - 1;
      ReducedCount(e, s[..n], k);
      var kept := if !Hits(e, s[n]) then [s[n]] else [e.keep(s[n])];
      CountAppend(e, Reduced(e, s[..n]), kept, k);
      assert Count(e, kept, k) == if Names(e, kept[0], k) then 1 else 0;
    }
  }

  lemma {:induction false} MadeCount<T(!new), K(!new)>(e: Edit<T, K>, found: set<K>, n: nat, k: K)
    requires Lawful(e) && n <= |e.selected|
    ensures Count(e, Made(e, found, n), k) == if k in e.selected[..n] && k !in found then 1 else 0
  {
    if n > 0 {
      MadeCount(e, found, n - 1, k);
      var made := e.make(e.selected[n - 1]);
      CountAppend(e, Made(e, found, n - 1), [made], k);
      assert Count(e, [made], k) == if Names(e, made, k) then 1 else 0;
      assert e.selected[..n] == e.selected[..n - 1] + [e.selected[n - 1]];
    }
  }

  /** Each selected target ends with exactly one tag when its tags stay, and with none otherwise. */
  lemma OnePerTarget<T(!new), K(!new)>(e: Edit<T, K>, s: seq<T>, k: K)
    requires Lawful(e) && k in e.selected
    ensures Count(e, Applied(e, s), k) == if e.keeps then 1 else 0
  {
    ReducedCount(e, s, k);
    MadeCount(e, Found(e, s), |e.selected|, k);
    assert e.selected[..|e.selected|] == e.selected;
    CountAppend(e, Reduced(e, s), if e.keeps then Made(e, Found(e, s), |e.selected|) else [], k);
  }

  // ----- Applying twice -----

  ghost predicate Fixed<T, K>(e: Edit<T, K>, s: seq<T>) {
    forall t :: t in s && Hits(e, t) ==> e.keep(t) == t
  }

  ghost predicate AtMostOnce<T, K>(e: Edit<T, K>, s: seq<T>) {
    forall k :: k in e.selected ==> Count(e, s, k) <= if e.keeps then 1 else 0
  }

  lemma {:induction false} CountPositive<T, K>(e: Edit<T, K>, s: seq<T>, k: K)
    ensures Count(e, s, k) > 0 <==> exists t :: t in s && Names(e, t, k)
  {
    if s != [] {
      var n := |s| - 1;
      CountPositive(e, s[..n], k);
      assert s == s[..n] + [s[n]];
      if t :| t in s[..n] && Names(e, t, k) {
        assert t in s;
      }
    }
  }

  /** A list already in shape is left as it is. */
  lemma {:induction false} ReducedFixed<T, K>(e: Edit<T, K>, s: seq<T>)
    requires Fixed(e, s) && AtMostOnce(e, s)
    ensures Reduced(e, s) == s
  {
    if s != [] {
      var n := |s| - 1;
      assert s == s[..n] + [s[n]];
      ReducedFixed(e, s[..n]);
      if Hits(e, s[n]) {
        var k := e.target(s[n]).value;
        assert Names(e, s[n], k) && Count(e, s, k) == Count(e, s[..n], k) + 1;
        CountPositive(e, s[..n], k);
        FoundMeaning(e, s[..n], k);
      }
    }
  }

  lemma {:induction false} NothingMade<T, K>(e: Edit<T, K>, found: set<K>, n: nat)
    requires n <= |e.selected| && forall k :: k in e.selected ==> k in found
    ensures Made(e, found, n) == []
  {
    if n > 0 {
      NothingMade(e, found, n - 1);
    }
  }

  lemma {:induction false} ReducedIsFixed<T(!new), K(!new)>(e: Edit<T, K>, s: seq<T>)
    requires Lawful(e)
    ensures Fixed(e, Reduced(e, s))
  {
    if s != [] {
      ReducedIsFixed(e, s[..|s| - 1]);
    }
  }

  lemma {:induction false} MadeIsFixed<T(!new), K(!new)>(e: Edit<T, K>, found: set<K>, n: nat)
    requires Lawful(e) && n <= |e.selected|
    ensures Fixed(e, Made(e, found, n))
  {
    if n > 0 {
      MadeIsFixed(e, found, n - 1);
    }
  }

  /** Applying an edit again changes nothing. */
  lemma Idempotent<T(!new), K(!new)>(e: Edit<T, K>, s: seq<T>)
    requires Lawful(e)
    ensures Applied(e, Applied(e, s)) == Applied(e, s)
  {
    var once := Applied(e, s);
    ReducedIsFixed(e, s);
    MadeIsFixed(e, Found(e, s), |e.selected|);
    forall k | k in e.selected
      ensures Count(e, once, k) == if e.keeps then 1 else 0
      ensures e.keeps ==> k in Found(e, once)
    {
      OnePerTarget(e, s, k);
      CountPositive(e, once, k);
      FoundMeaning(e, once, k);
    }
    ReducedFixed(e, once);
    if e.keeps {
      NothingMade(e, Found(e, once), |e.selected|);
    }
  }
}
