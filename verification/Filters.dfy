/** NIP-01 filters: what they match, when one contains another, and the single
    merge the grouping planner may perform. */
module Filters {
  import opened Prelude
  import opened Events

  type TagName = char

  datatype Filter = Filter(
    ids: Option<set<EventId>>,
    authors: Option<set<PublicKey>>,
    kinds: Option<set<Kind>>,
    search: Option<string>,
    since: Option<Timestamp>,
    until: Option<Timestamp>,
    limit: Option<nat>,
    tags: map<TagName, set<string>>)

  // ----- Meaning -----

  /** On ids, authors and kinds an absent set and an empty set both mean "anything". */
  predicate Constrains<T>(axis: Option<set<T>>) {
    axis.Some? && axis.value != {}
  }

  predicate Admits<T(==)>(axis: Option<set<T>>, x: T) {
    Constrains(axis) ==> x in axis.value
  }

  /** On tags an empty value set means "nothing": no value can be in it. */
  predicate Carries(e: Event, name: TagName, values: set<string>) {
    exists t :: t in e.tags && Named(t, [name]) && |t.values| >= 2 && t.values[1] in values
  }

  function Folded(c: char): char {
    if 'A' <= c <= 'Z' then c - 'A' + 'a' else c
  }

  predicate MentionsAt(text: string, term: string, i: nat) {
    i + |term| <= |text| && forall j :: 0 <= j < |term| ==> Folded(text[i + j]) == Folded(term[j])
  }

  predicate Mentions(text: string, term: string) {
    exists i: nat :: i <= |text| && MentionsAt(text, term, i)
  }

  predicate MatchesRest(f: Filter, e: Event) {
    && (f.since.Some? ==> f.since.value <= e.createdAt)
    && (f.until.Some? ==> e.createdAt <= f.until.value)
    && (f.search.Some? ==> Mentions(e.content, f.search.value))
  }

  predicate MatchesTags(tags: map<TagName, set<string>>, e: Event) {
    forall name :: name in tags ==> Carries(e, name, tags[name])
  }

  /** Whether the event answers the filter. A limit caps a count and is no predicate. */
  predicate Matches(f: Filter, e: Event) {
    && Admits(f.ids, e.id)
    && Admits(f.authors, e.author)
    && Admits(f.kinds, e.kind)
    && MatchesRest(f, e)
    && MatchesTags(f.tags, e)
  }

  // ----- Containment -----

  predicate CoversSet<T>(wide: Option<set<T>>, narrow: Option<set<T>>) {
    Constrains(wide) ==> Constrains(narrow) && narrow.value <= wide.value
  }

  predicate CoversWindow(wide: Filter, narrow: Filter) {
    && (wide.since.Some? ==> narrow.since.Some? && wide.since.value <= narrow.since.value)
    && (wide.until.Some? ==> narrow.until.Some? && wide.until.value >= narrow.until.value)
  }

  predicate CoversTags(wide: map<TagName, set<string>>, narrow: map<TagName, set<string>>) {
    forall name :: name in wide ==> name in narrow && narrow[name] <= wide[name]
  }

  /** Whether a running `wide` already asks the relay for everything `narrow` wants. */
  predicate Covers(wide: Filter, narrow: Filter) {
    wide == narrow ||
    (&& wide.limit.None? && narrow.limit.None?
     && wide.search == narrow.search
     && CoversSet(wide.ids, narrow.ids)
     && CoversSet(wide.authors, narrow.authors)
     && CoversSet(wide.kinds, narrow.kinds)
     && CoversWindow(wide, narrow)
     && CoversTags(wide.tags, narrow.tags))
  }

  lemma CarriesMore(e: Event, name: TagName, few: set<string>, many: set<string>)
    requires few <= many && Carries(e, name, few)
    ensures Carries(e, name, many)
  {
  }

  /** Containment is sound: nothing the narrow filter wants escapes the wide one. */
  lemma CoversSound(wide: Filter, narrow: Filter, e: Event)
    requires Covers(wide, narrow) && Matches(narrow, e)
    ensures Matches(wide, e)
  {
    forall name | name in wide.tags && wide != narrow
      ensures Carries(e, name, wide.tags[name])
    {
      CarriesMore(e, name, narrow.tags[name], wide.tags[name]);
    }
  }

  lemma CoversTransitive(a: Filter, b: Filter, c: Filter)
    requires Covers(a, b) && Covers(b, c)
    ensures Covers(a, c)
  {
  }

  // ----- The one merge -----

  predicate RemainderMatches(left: Filter, right: Filter) {
    left.search == right.search && left.since == right.since && left.until == right.until
  }

  function DifferingTags(left: Filter, right: Filter): set<TagName>
    requires left.tags.Keys == right.tags.Keys
  {
    set name | name in left.tags && left.tags[name] != right.tags[name]
  }

  function Differs<T(==)>(left: T, right: T): nat {
    if left != right then 1 else 0
  }

  function DifferingAxes(left: Filter, right: Filter): nat
    requires left.tags.Keys == right.tags.Keys
  {
    Differs(left.ids, right.ids) + Differs(left.authors, right.authors)
    + Differs(left.kinds, right.kinds) + |DifferingTags(left, right)|
  }

  /** Union of one value-set axis, refusing an unconstrained operand. */
  function UnionConstrained<T(==)>(left: Option<set<T>>, right: Option<set<T>>): Option<set<T>> {
    if Constrains(left) && Constrains(right) then Some(left.value + right.value) else None
  }

  lemma SoleMember<T>(s: set<T>, a: T, b: T)
    requires |s| == 1 && a in s && b in s
    ensures a == b
  {
    assert |s - {a}| == 0;
    assert b !in s - {a};
  }

  /** Union of one tag name; the empty value set is an ordinary operand here. */
  function UnionTag(left: Filter, right: Filter): Option<Filter>
    requires left.tags.Keys == right.tags.Keys
    requires |DifferingTags(left, right)| == 1
  {
    var names := DifferingTags(left, right);
    assert names != {};
    assert forall a, b :: a in names && b in names ==> a == b by {
      forall a, b | a in names && b in names
        ensures a == b
      {
        SoleMember(names, a, b);
      }
    }
    var name :| name in names;
    Some(left.(tags := left.tags[name := left.tags[name] + right.tags[name]]))
  }

  /** Union of two filters that disagree on exactly one value-set axis. */
  function MergeOnSoleDifferingAxis(left: Filter, right: Filter): Option<Filter> {
    if left.limit.Some? || right.limit.Some? then None
    else if !RemainderMatches(left, right) then None
    else if left.tags.Keys != right.tags.Keys then None
    else if DifferingAxes(left, right) != 1 then None
    else if left.ids != right.ids then
      var values := UnionConstrained(left.ids, right.ids);
      if values.None? then None else Some(left.(ids := values))
    else if left.authors != right.authors then
      var values := UnionConstrained(left.authors, right.authors);
      if values.None? then None else Some(left.(authors := values))
    else if left.kinds != right.kinds then
      var values := UnionConstrained(left.kinds, right.kinds);
      if values.None? then None else Some(left.(kinds := values))
    else
      UnionTag(left, right)
  }

  /** When only tags differ, they differ in one name. */
  lemma MergeShape(left: Filter, right: Filter)
    requires MergeOnSoleDifferingAxis(left, right).Some?
    ensures left.limit.None? && right.limit.None? && RemainderMatches(left, right)
    ensures left.tags.Keys == right.tags.Keys
    ensures left.ids != right.ids || left.authors != right.authors || left.kinds != right.kinds
            ==> left.tags == right.tags
    ensures left.ids != right.ids ==> left.authors == right.authors && left.kinds == right.kinds
    ensures left.authors != right.authors ==> left.ids == right.ids && left.kinds == right.kinds
    ensures left.kinds != right.kinds ==> left.ids == right.ids && left.authors == right.authors
  {
    if left.ids != right.ids || left.authors != right.authors || left.kinds != right.kinds {
      assert |DifferingTags(left, right)| == 0;
      assert forall name :: name in left.tags ==> name !in DifferingTags(left, right);
    }
  }

  /** The merged tag map: one name's values joined, every other name untouched. */
  lemma UnionTagShape(left: Filter, right: Filter) returns (name: TagName)
    requires left.tags.Keys == right.tags.Keys
    requires |DifferingTags(left, right)| == 1
    ensures name in left.tags
    ensures UnionTag(left, right)
            == Some(left.(tags := left.tags[name := left.tags[name] + right.tags[name]]))
    ensures forall other :: other in left.tags && other != name ==> left.tags[other] == right.tags[other]
  {
    var names := DifferingTags(left, right);
    assert names != {};
    name :| name in names;
    forall other | other in left.tags && other != name
      ensures left.tags[other] == right.tags[other]
    {
      if other in names {
        SoleMember(names, name, other);
      }
    }
    forall a | a in names
      ensures a == name
    {
      SoleMember(names, a, name);
    }
  }

  /** RELAY-003: a merge asks for exactly what its two operands asked for, no more and no less. */
  lemma MergeExact(left: Filter, right: Filter, e: Event)
    requires MergeOnSoleDifferingAxis(left, right).Some?
    ensures Matches(MergeOnSoleDifferingAxis(left, right).value, e) <==> Matches(left, e) || Matches(right, e)
  {
    MergeShape(left, right);
    var merged := MergeOnSoleDifferingAxis(left, right).value;
    if left.ids == right.ids && left.authors == right.authors && left.kinds == right.kinds {
      var name := UnionTagShape(left, right);
      UnionTagExact(left.tags, right.tags, name, e);
    }
  }

  /** Where tag maps differ in one name only, joining its values asks for either's events. */
  lemma UnionTagExact(left: map<TagName, set<string>>, right: map<TagName, set<string>>, name: TagName, e: Event)
    requires left.Keys == right.Keys && name in left
    requires forall other :: other in left && other != name ==> left[other] == right[other]
    ensures MatchesTags(left[name := left[name] + right[name]], e) <==> MatchesTags(left, e) || MatchesTags(right, e)
  {
    var merged := left[name := left[name] + right[name]];
    assert Carries(e, name, merged[name]) <==> Carries(e, name, left[name]) || Carries(e, name, right[name]);
    if MatchesTags(merged, e) {
      assert Carries(e, name, merged[name]);
      assert forall other :: other in left && other != name ==> Carries(e, other, merged[other]);
    }
  }

  /** A merge contains both operands by the planner's own containment test. */
  lemma MergeCovers(left: Filter, right: Filter)
    requires MergeOnSoleDifferingAxis(left, right).Some?
    ensures Covers(MergeOnSoleDifferingAxis(left, right).value, left)
    ensures Covers(MergeOnSoleDifferingAxis(left, right).value, right)
    ensures MergeOnSoleDifferingAxis(left, right).value.limit.None?
  {
    MergeShape(left, right);
    if left.ids == right.ids && left.authors == right.authors && left.kinds == right.kinds {
      var name := UnionTagShape(left, right);
    }
  }
}
