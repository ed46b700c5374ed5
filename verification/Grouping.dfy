/** Merging compatible unsent demand into the fewest filters that preserve meaning. */
module Grouping {
  import opened Prelude
  import opened Orders
  import opened Events
  import opened Filters
  import opened Demand

  /** A wire filter and the exact demand it was merged from. */
  datatype Candidate = Candidate(filter: Filter, members: seq<RelayDemand>)

  /** Every demand the candidates carry, with multiplicity. */
  ghost function Load(candidates: seq<Candidate>): multiset<RelayDemand> {
    if candidates == [] then multiset{} else multiset(candidates[0].members) + Load(candidates[1..])
  }

  // ----- The three steps -----

  function CanonicalOrder(w: Wire, demand: seq<RelayDemand>): seq<RelayDemand> {
    SortBy(demand, DemandOrder(w))
  }

  /** Adds a candidate to the one already carrying its filter, or at the end. */
  function Join(pool: seq<Candidate>, c: Candidate): seq<Candidate> {
    if pool == [] then [c]
    else if pool[0].filter == c.filter then [Candidate(c.filter, pool[0].members + c.members)] + pool[1..]
    else [pool[0]] + Join(pool[1..], c)
  }

  function JoinAll(pool: seq<Candidate>, candidates: seq<Candidate>): seq<Candidate>
    decreases |candidates|
  {
    if candidates == [] then pool else JoinAll(Join(pool, candidates[0]), candidates[1..])
  }

  function Singletons(demand: seq<RelayDemand>): seq<Candidate> {
    seq(|demand|, i requires 0 <= i < |demand| => Candidate(demand[i].filter, [demand[i]]))
  }

  function BucketByFilter(demand: seq<RelayDemand>): seq<Candidate> {
    JoinAll([], Singletons(demand))
  }

  function FoldIdenticalUnions(candidates: seq<Candidate>): seq<Candidate> {
    JoinAll([], candidates)
  }

  /** The whole-query bounds every member shares, if they share one. */
  function UniformBounds(members: seq<RelayDemand>): Option<QueryBounds> {
    if members != [] && forall m :: m in members ==> m.bounds == members[0].bounds
    then Some(members[0].bounds) else None
  }

  predicate Mergeable(left: Candidate, right: Candidate) {
    && UniformBounds(left.members).Some?
    && UniformBounds(right.members) == UniformBounds(left.members)
    && MergeOnSoleDifferingAxis(left.filter, right.filter).Some?
  }

  function FirstPartner(candidates: seq<Candidate>, left: nat, from: nat): (r: Option<nat>)
    requires left < from <= |candidates|
    ensures r.Some? ==> from <= r.value < |candidates| && Mergeable(candidates[left], candidates[r.value])
    ensures r.None? ==> forall j :: from <= j < |candidates| ==> !Mergeable(candidates[left], candidates[j])
    decreases |candidates| - from
  {
    if from == |candidates| then None
    else if Mergeable(candidates[left], candidates[from]) then Some(from)
    else FirstPartner(candidates, left, from + 1)
  }

  function FirstMergeablePair(candidates: seq<Candidate>, left: nat): (r: Option<(nat, nat)>)
    requires left <= |candidates|
    ensures r.Some? ==> left <= r.value.0 < r.value.1 < |candidates|
                        && Mergeable(candidates[r.value.0], candidates[r.value.1])
    ensures r.None? ==> forall i, j :: left <= i < j < |candidates| ==> !Mergeable(candidates[i], candidates[j])
    decreases |candidates| - left
  {
    if left == |candidates| then None
    else
      var partner := FirstPartner(candidates, left, left + 1);
      if partner.Some? then Some((left, partner.value)) else FirstMergeablePair(candidates, left + 1)
  }

  function Absorb(candidates: seq<Candidate>, left: nat, right: nat): seq<Candidate>
    requires left < right < |candidates| && Mergeable(candidates[left], candidates[right])
  {
    var merged := MergeOnSoleDifferingAxis(candidates[left].filter, candidates[right].filter).value;
    var joined := Candidate(merged, candidates[left].members + candidates[right].members);
    (candidates[..right] + candidates[right + 1..])[left := joined]
  }

  function MergeToFixedPoint(candidates: seq<Candidate>): seq<Candidate>
    decreases |candidates|
  {
    var pair := FirstMergeablePair(candidates, 0);
    if pair.None? then candidates
    else MergeToFixedPoint(Absorb(candidates, pair.value.0, pair.value.1))
  }

  /** The candidates before the last fold. */
  function Merged(w: Wire, demand: seq<RelayDemand>, constraints: Constraints): seq<Candidate> {
    var buckets := BucketByFilter(CanonicalOrder(w, demand));
    if constraints.defaultFilterLimit.None? then MergeToFixedPoint(buckets) else buckets
  }

  /** Partition unsent demand into the wire filters it can share. */
  function Group(w: Wire, demand: seq<RelayDemand>, constraints: Constraints): seq<Candidate> {
    FoldIdenticalUnions(Merged(w, demand, constraints))
  }

  // ----- What a sound candidate is -----

  /** Some member under these bounds wants the event. */
  ghost predicate Wants(members: seq<RelayDemand>, bounds: QueryBounds, e: Event) {
    exists m :: m in members && m.bounds == bounds && Matches(m.filter, e)
  }

  /** Everything the filter brings in is wanted by a member bounded this way. */
  ghost predicate WidenedOnlyBy(f: Filter, members: seq<RelayDemand>, bounds: QueryBounds) {
    forall e :: Matches(f, e) ==> Wants(members, bounds, e)
  }

  /** A member either asked for exactly this filter, or was widened, without any
      limit, by members bounded as it is. */
  ghost predicate Justified(f: Filter, members: seq<RelayDemand>, m: RelayDemand) {
    m.filter == f || (f.limit.None? && WidenedOnlyBy(f, members, m.bounds))
  }

  /** The candidate's filter contains every member's, answers for nobody else,
      and no member's own request is longer. */
  ghost predicate Sound(w: Wire, c: Candidate) {
    && c.members != []
    && (|c.members| == 1 ==> c.members[0].filter == c.filter)
    && (forall m :: m in c.members ==>
          && Covers(c.filter, m.filter)
          && Justified(c.filter, c.members, m)
          && w.size(m.filter) <= w.size(c.filter))
  }

  ghost predicate AllSound(w: Wire, candidates: seq<Candidate>) {
    forall i :: 0 <= i < |candidates| ==> Sound(w, candidates[i])
  }

  /** Every member asked for the candidate's own filter. */
  ghost predicate Identical(c: Candidate) {
    forall m :: m in c.members ==> m.filter == c.filter
  }

  ghost predicate AllIdentical(candidates: seq<Candidate>) {
    forall i :: 0 <= i < |candidates| ==> Identical(candidates[i])
  }

  /** No two candidates carry one filter. */
  ghost predicate DistinctFilters(candidates: seq<Candidate>) {
    forall i, j :: 0 <= i < j < |candidates| ==> candidates[i].filter != candidates[j].filter
  }

  /** No pair admits a further merge. */
  ghost predicate Stuck(candidates: seq<Candidate>) {
    forall i, j :: 0 <= i < j < |candidates| ==> !Mergeable(candidates[i], candidates[j])
  }

  // ----- Conservation -----

  lemma {:induction false} LoadSplit(a: seq<Candidate>, b: seq<Candidate>)
    ensures Load(a + b) == Load(a) + Load(b)
  {
    if a == [] {
      assert a + b == b;
    } else {
      assert (a + b)[1..] == a[1..] + b;
      LoadSplit(a[1..], b);
    }
  }

  lemma {:induction false} LoadMember(candidates: seq<Candidate>, m: RelayDemand)
    ensures m in Load(candidates) <==> exists i :: 0 <= i < |candidates| && m in candidates[i].members
  {
    if candidates != [] {
      LoadMember(candidates[1..], m);
      if i :| 0 <= i < |candidates| && m in candidates[i].members {
        assert i > 0 ==> m in candidates[1..][i - 1].members;
      }
      if i :| 0 <= i < |candidates[1..]| && m in candidates[1..][i].members {
        assert m in candidates[i + 1].members;
      }
    }
  }

  lemma {:induction false} JoinLoad(pool: seq<Candidate>, c: Candidate)
    ensures Load(Join(pool, c)) == Load(pool) + multiset(c.members)
  {
    if pool != [] {
      if pool[0].filter == c.filter {
        assert Join(pool, c)[1..] == pool[1..];
      } else {
        JoinLoad(pool[1..], c);
        assert Join(pool, c)[1..] == Join(pool[1..], c);
      }
    }
  }

  lemma {:induction false} JoinAllLoad(pool: seq<Candidate>, candidates: seq<Candidate>)
    ensures Load(JoinAll(pool, candidates)) == Load(pool) + Load(candidates)
    decreases |candidates|
  {
    if candidates != [] {
      JoinLoad(pool, candidates[0]);
      JoinAllLoad(Join(pool, candidates[0]), candidates[1..]);
    }
  }

  lemma {:induction false} SingletonLoad(demand: seq<RelayDemand>)
    ensures Load(Singletons(demand)) == multiset(demand)
  {
    if demand != [] {
      SingletonLoad(demand[1..]);
      var singles := Singletons(demand);
      assert singles[1..] == Singletons(demand[1..]);
      assert singles[0].members == [demand[0]] && demand == [demand[0]] + demand[1..];
      assert multiset(demand) == multiset([demand[0]]) + multiset(demand[1..]);
    }
  }

  lemma AbsorbLoad(candidates: seq<Candidate>, left: nat, right: nat)
    requires left < right < |candidates| && Mergeable(candidates[left], candidates[right])
    ensures Load(Absorb(candidates, left, right)) == Load(candidates)
  {
    var rest := candidates[..right] + candidates[right + 1..];
    var after := Absorb(candidates, left, right);
    LoadTaken(candidates, right);
    LoadTaken(rest, left);
    LoadTaken(after, left);
    assert after[..left] + after[left + 1..] == rest[..left] + rest[left + 1..];
  }

  lemma LoadTaken(candidates: seq<Candidate>, i: nat)
    requires i < |candidates|
    ensures Load(candidates) == Load(candidates[..i] + candidates[i + 1..]) + multiset(candidates[i].members)
  {
    assert candidates == candidates[..i] + ([candidates[i]] + candidates[i + 1..]);
    LoadSplit(candidates[..i], [candidates[i]] + candidates[i + 1..]);
    LoadSplit(candidates[..i], candidates[i + 1..]);
  }

  // ----- Soundness of joining identical filters -----

  lemma SoundExact(w: Wire, c: Candidate, e: Event)
    requires Sound(w, c)
    ensures Matches(c.filter, e) <==> exists m :: m in c.members && Matches(m.filter, e)
  {
    if m :| m in c.members && Matches(m.filter, e) {
      CoversSound(c.filter, m.filter, e);
    }
    if Matches(c.filter, e) {
      var m := c.members[0];
      assert Justified(c.filter, c.members, m);
      if m.filter != c.filter {
        assert Wants(c.members, m.bounds, e);
      }
    }
  }

  lemma JoinedSound(w: Wire, f: Filter, a: seq<RelayDemand>, b: seq<RelayDemand>)
    requires Sound(w, Candidate(f, a)) && Sound(w, Candidate(f, b))
    ensures Sound(w, Candidate(f, a + b))
  {
    forall m | m in a + b
      ensures Covers(f, m.filter) && Justified(f, a + b, m) && w.size(m.filter) <= w.size(f)
    {
      var own := if m in a then a else b;
      assert m in Candidate(f, own).members;
      forall e | Wants(own, m.bounds, e)
        ensures Wants(a + b, m.bounds, e)
      {
        var m' :| m' in own && m'.bounds == m.bounds && Matches(m'.filter, e);
        assert m' in a + b;
      }
    }
  }

  lemma {:induction false} JoinSound(w: Wire, pool: seq<Candidate>, c: Candidate)
    requires AllSound(w, pool) && Sound(w, c)
    ensures AllSound(w, Join(pool, c))
  {
    if pool != [] {
      if pool[0].filter == c.filter {
        assert pool[0] == Candidate(c.filter, pool[0].members);
        JoinedSound(w, c.filter, pool[0].members, c.members);
      } else {
        JoinSound(w, pool[1..], c);
      }
    }
  }

  lemma {:induction false} JoinIdentical(pool: seq<Candidate>, c: Candidate)
    requires AllIdentical(pool) && Identical(c)
    ensures AllIdentical(Join(pool, c))
  {
    if pool != [] && pool[0].filter != c.filter {
      JoinIdentical(pool[1..], c);
    }
  }

  ghost function FiltersOf(candidates: seq<Candidate>): set<Filter> {
    set c | c in candidates :: c.filter
  }

  lemma DistinctHead(pool: seq<Candidate>)
    requires pool != []
    ensures FiltersOf(pool) == {pool[0].filter} + FiltersOf(pool[1..])
    ensures DistinctFilters(pool) <==> pool[0].filter !in FiltersOf(pool[1..]) && DistinctFilters(pool[1..])
  {
    forall c | c in pool
      ensures c == pool[0] || c in pool[1..]
    {
    }
    if pool[0].filter !in FiltersOf(pool[1..]) && DistinctFilters(pool[1..]) {
      forall j | 0 < j < |pool|
        ensures pool[j].filter != pool[0].filter
      {
        assert pool[j] in pool[1..];
      }
    }
  }

  lemma {:induction false} JoinDistinct(pool: seq<Candidate>, c: Candidate)
    requires DistinctFilters(pool)
    ensures DistinctFilters(Join(pool, c))
    ensures FiltersOf(Join(pool, c)) == FiltersOf(pool) + {c.filter}
  {
    if pool != [] {
      var joined := Join(pool, c);
      DistinctHead(pool);
      DistinctHead(joined);
      if pool[0].filter == c.filter {
        assert joined[1..] == pool[1..];
      } else {
        assert joined[1..] == Join(pool[1..], c);
        JoinDistinct(pool[1..], c);
      }
    }
  }

  lemma {:induction false} JoinAllKeeps(w: Wire, pool: seq<Candidate>, candidates: seq<Candidate>)
    requires AllSound(w, pool) && AllSound(w, candidates) && DistinctFilters(pool)
    ensures AllSound(w, JoinAll(pool, candidates))
    ensures DistinctFilters(JoinAll(pool, candidates))
    decreases |candidates|
  {
    if candidates != [] {
      JoinSound(w, pool, candidates[0]);
      JoinDistinct(pool, candidates[0]);
      JoinAllKeeps(w, Join(pool, candidates[0]), candidates[1..]);
    }
  }

  lemma {:induction false} JoinAllIdentical(pool: seq<Candidate>, candidates: seq<Candidate>)
    requires AllIdentical(pool) && AllIdentical(candidates)
    ensures AllIdentical(JoinAll(pool, candidates))
    decreases |candidates|
  {
    if candidates != [] {
      JoinIdentical(pool, candidates[0]);
      JoinAllIdentical(Join(pool, candidates[0]), candidates[1..]);
    }
  }

  lemma BucketKeeps(w: Wire, demand: seq<RelayDemand>)
    ensures Load(BucketByFilter(demand)) == multiset(demand)
    ensures AllSound(w, BucketByFilter(demand)) && AllIdentical(BucketByFilter(demand))
  {
    assert Load(BucketByFilter(demand)) == multiset(demand) by {
      JoinAllLoad([], Singletons(demand));
      SingletonLoad(demand);
    }
    assert AllSound(w, BucketByFilter(demand)) by {
      JoinAllKeeps(w, [], Singletons(demand));
    }
    assert AllIdentical(BucketByFilter(demand)) by {
      JoinAllIdentical([], Singletons(demand));
    }
  }

  // ----- Soundness of merging -----

  lemma UniformMember(members: seq<RelayDemand>, m: RelayDemand)
    requires UniformBounds(members).Some? && m in members
    ensures m.bounds == UniformBounds(members).value
  {
  }

  lemma MergedSound(w: Wire, left: Candidate, right: Candidate)
    requires SizeGrows(w) && Sound(w, left) && Sound(w, right) && Mergeable(left, right)
    ensures Sound(w, Candidate(MergeOnSoleDifferingAxis(left.filter, right.filter).value, left.members + right.members))
  {
    var merged := MergeOnSoleDifferingAxis(left.filter, right.filter).value;
    var members := left.members + right.members;
    MergeCovers(left.filter, right.filter);
    forall m | m in members
      ensures Covers(merged, m.filter) && Justified(merged, members, m) && w.size(m.filter) <= w.size(merged)
    {
      CoversTransitive(merged, if m in left.members then left.filter else right.filter, m.filter);
      forall e | Matches(merged, e)
        ensures Wants(members, m.bounds, e)
      {
        MergeExact(left.filter, right.filter, e);
        var side := if Matches(left.filter, e) then left else right;
        SoundExact(w, side, e);
        var m' :| m' in side.members && Matches(m'.filter, e);
        UniformMember(side.members, m');
        UniformMember(if m in left.members then left.members else right.members, m);
        assert m' in members;
      }
    }
  }

  lemma AbsorbSound(w: Wire, candidates: seq<Candidate>, left: nat, right: nat)
    requires SizeGrows(w) && AllSound(w, candidates)
    requires left < right < |candidates| && Mergeable(candidates[left], candidates[right])
    ensures AllSound(w, Absorb(candidates, left, right))
  {
    MergedSound(w, candidates[left], candidates[right]);
    var after := Absorb(candidates, left, right);
    forall i | 0 <= i < |after|
      ensures Sound(w, after[i])
    {
      if i != left {
        assert after[i] == candidates[if i < right then i else i + 1];
      }
    }
  }

  lemma {:induction false} MergeToFixedPointKeeps(w: Wire, candidates: seq<Candidate>)
    requires SizeGrows(w) && AllSound(w, candidates)
    ensures Load(MergeToFixedPoint(candidates)) == Load(candidates)
    ensures AllSound(w, MergeToFixedPoint(candidates))
    ensures Stuck(MergeToFixedPoint(candidates))
    decreases |candidates|
  {
    var pair := FirstMergeablePair(candidates, 0);
    if pair.Some? {
      var (left, right) := pair.value;
      AbsorbLoad(candidates, left, right);
      AbsorbSound(w, candidates, left, right);
      MergeToFixedPointKeeps(w, Absorb(candidates, left, right));
    }
  }

  // ----- Main results about grouping -----

  /** Grouping partitions its demand, keeps every candidate sound and stops only
      when no pair admits a further merge; a declared default limit reduces it to
      exact deduplication. */
  lemma GroupPartitions(w: Wire, demand: seq<RelayDemand>, constraints: Constraints)
    requires SizeGrows(w)
    ensures Load(Group(w, demand, constraints)) == multiset(demand)
    ensures AllSound(w, Group(w, demand, constraints))
    ensures DistinctFilters(Group(w, demand, constraints))
    ensures constraints.defaultFilterLimit.None? ==> Stuck(Merged(w, demand, constraints))
    ensures constraints.defaultFilterLimit.Some? ==> AllIdentical(Group(w, demand, constraints))
  {
    var merged := Merged(w, demand, constraints);
    BucketKeeps(w, CanonicalOrder(w, demand));
    if constraints.defaultFilterLimit.None? {
      MergeToFixedPointKeeps(w, BucketByFilter(CanonicalOrder(w, demand)));
    } else {
      JoinAllIdentical([], merged);
    }
    JoinAllLoad([], merged);
    JoinAllKeeps(w, [], merged);
  }

  /** What one candidate means for its members, for every event: the union is
      exact, widening never crosses whole-query bounds, and a limit is shared
      only by identical filters. */
  lemma GroupPreservesMeaning(w: Wire, demand: seq<RelayDemand>, constraints: Constraints,
                              c: Candidate, m: RelayDemand, e: Event)
    requires SizeGrows(w) && c in Group(w, demand, constraints) && m in c.members
    ensures m in demand
    ensures Matches(c.filter, e) <==> exists m' :: m' in c.members && Matches(m'.filter, e)
    ensures m.filter != c.filter ==> (Matches(c.filter, e) <==> Wants(c.members, m.bounds, e))
    ensures c.filter.limit.Some? || m.filter.limit.Some? ==> m.filter == c.filter
  {
    GroupPartitions(w, demand, constraints);
    LoadMember(Group(w, demand, constraints), m);
    assert m in multiset(demand);
    SoundExact(w, c, e);
    assert Covers(c.filter, m.filter) && Justified(c.filter, c.members, m);
  }
}
