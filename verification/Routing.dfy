/** Route contributions: their bounds, how they combine, and the plan built from one. */
module Routing {
  import opened Prelude
  import opened Events

  /** Text measured in encoded bytes. */
  type Text = string

  datatype Target = WholeRequest | Author(key: PublicKey) | Recipient(key: PublicKey) | ReferencedEvent(id: EventId)

  datatype Coverage = Covered(relays: set<RelayUrl>) | Unresolved | SettledAbsent

  datatype Destination = Destination(session: RelayUrl, targets: set<Target>, router: Text, reason: Text)

  datatype Contribution = Contribution(
    destinations: seq<Destination>,
    coverage: map<Target, Coverage>,
    unresolved: set<Target>,
    shortfalls: seq<Text>)

  datatype PlannedRelay = PlannedRelay(session: RelayUrl, targets: set<Target>, reasons: set<(Text, Text)>)

  datatype Plan = Plan(
    revision: nat,
    destinations: map<RelayUrl, PlannedRelay>,
    coverage: map<Target, Coverage>,
    unresolved: set<Target>,
    shortfalls: seq<Text>)

  datatype RouterError = Refused(reason: Text) | OverBound(what: Text) | Closed

  const MAX_DESTINATIONS: nat := 256
  const MAX_COVERED_SESSIONS: nat := 256
  const MAX_SHORTFALLS: nat := 256
  const MAX_TEXT_BYTES: nat := 4_096

  const NOTHING: Contribution := Contribution([], map[], {}, [])
  const EMPTY_PLAN: Plan := Plan(0, map[], map[], {}, [])

  // ----- Bounds -----

  function Sessions(ds: seq<Destination>): set<RelayUrl> {
    set d | d in ds :: d.session
  }

  predicate CoverageBounded(coverage: map<Target, Coverage>) {
    forall t :: t in coverage && coverage[t].Covered? ==> |coverage[t].relays| <= MAX_COVERED_SESSIONS
  }

  predicate WithinBounds(c: Contribution) {
    && |Sessions(c.destinations)| <= MAX_DESTINATIONS
    && (forall d :: d in c.destinations ==> |d.reason| <= MAX_TEXT_BYTES)
    && CoverageBounded(c.coverage)
    && (forall s :: s in c.shortfalls ==> |s| <= MAX_TEXT_BYTES)
  }

  /** The first bound a contribution exceeds, in the order they are checked. */
  function FirstExceeded(c: Contribution): Option<Text> {
    if |Sessions(c.destinations)| > MAX_DESTINATIONS then Some("route destinations")
    else if exists d :: d in c.destinations && |d.reason| > MAX_TEXT_BYTES then Some("route reason")
    else if !CoverageBounded(c.coverage) then Some("covered relay sessions")
    else if exists s :: s in c.shortfalls && |s| > MAX_TEXT_BYTES then Some("route shortfall")
    else None
  }

  /** A contribution is within bounds exactly when no bound is exceeded. */
  lemma NoneExceeded(c: Contribution)
    ensures FirstExceeded(c).None? <==> WithinBounds(c)
  {
  }

  method ValidateBounds(c: Contribution) returns (r: Result<(), RouterError>)
    ensures r == if FirstExceeded(c).None? then Ok(()) else Err(OverBound(FirstExceeded(c).value))
    ensures r.Ok? <==> WithinBounds(c)
  {
    if |Sessions(c.destinations)| > MAX_DESTINATIONS {
      return Err(OverBound("route destinations"));
    }
    for i := 0 to |c.destinations|
      invariant forall d :: d in c.destinations[..i] ==> |d.reason| <= MAX_TEXT_BYTES
    {
      if |c.destinations[i].reason| > MAX_TEXT_BYTES {
        assert c.destinations[i] in c.destinations;
        return Err(OverBound("route reason"));
      }
    }
    assert c.destinations[..|c.destinations|] == c.destinations;
    if exists t :: t in c.coverage && c.coverage[t].Covered? && |c.coverage[t].relays| > MAX_COVERED_SESSIONS {
      return Err(OverBound("covered relay sessions"));
    }
    for i := 0 to |c.shortfalls|
      invariant forall s :: s in c.shortfalls[..i] ==> |s| <= MAX_TEXT_BYTES
    {
      if |c.shortfalls[i]| > MAX_TEXT_BYTES {
        assert c.shortfalls[i] in c.shortfalls;
        return Err(OverBound("route shortfall"));
      }
    }
    assert c.shortfalls[..|c.shortfalls|] == c.shortfalls;
    return Ok(());
  }

  // ----- Combining -----

  /** Covered sets join; an unresolved answer never undoes one; a settled absence changes nothing. */
  function MergeState(current: Coverage, incoming: Coverage): Coverage {
    match incoming
    case Covered(relays) => Covered(if current.Covered? then current.relays + relays else relays)
    case Unresolved => if current.Covered? then current else Unresolved
    case SettledAbsent => current
  }

  function MergeCoverage(current: map<Target, Coverage>, incoming: map<Target, Coverage>): map<Target, Coverage> {
    map t | t in current.Keys + incoming.Keys ::
      if t in incoming then MergeState(Held(current, t), incoming[t]) else current[t]
  }

  function Joined(a: Contribution, b: Contribution): Contribution {
    Contribution(a.destinations + b.destinations, MergeCoverage(a.coverage, b.coverage), a.unresolved + b.unresolved,
                 a.shortfalls + b.shortfalls)
  }

  function Combine(cs: seq<Contribution>): Contribution {
    if cs == [] then NOTHING else Joined(Combine(cs[..|cs| - 1]), cs[|cs| - 1])
  }

  function Held(coverage: map<Target, Coverage>, t: Target): Coverage {
    if t in coverage then coverage[t] else Unresolved
  }

  lemma MergeOneMore(current: map<Target, Coverage>, done: map<Target, Coverage>, t: Target, state: Coverage)
    requires t !in done
    ensures MergeCoverage(current, done[t := state])
            == MergeCoverage(current, done)[t := MergeState(Held(MergeCoverage(current, done), t), state)]
  {
    assert Held(MergeCoverage(current, done), t) == Held(current, t);
  }

  method MergeInto(current: map<Target, Coverage>, incoming: map<Target, Coverage>) returns (r: map<Target, Coverage>)
    ensures r == MergeCoverage(current, incoming)
  {
    r := current;
    var left := incoming.Keys;
    ghost var done: map<Target, Coverage> := map[];
    assert MergeCoverage(current, done) == current;
    while left != {}
      invariant left <= incoming.Keys && done.Keys == incoming.Keys - left
      invariant forall t :: t in done ==> done[t] == incoming[t]
      invariant r == MergeCoverage(current, done)
      decreases left
    {
      var t :| t in left;
      MergeOneMore(current, done, t, incoming[t]);
      r := r[t := MergeState(Held(r, t), incoming[t])];
      left := left - {t};
      done := done[t := incoming[t]];
    }
    assert done == incoming;
  }

  method CombineContributions(cs: seq<Contribution>) returns (r: Contribution)
    ensures r == Combine(cs)
  {
    r := NOTHING;
    for i := 0 to |cs|
      invariant r == Combine(cs[..i])
    {
      assert cs[..i + 1][..i] == cs[..i];
      var coverage := MergeInto(r.coverage, cs[i].coverage);
      r := Contribution(r.destinations + cs[i].destinations, coverage, r.unresolved + cs[i].unresolved,
                        r.shortfalls + cs[i].shortfalls);
    }
    assert cs[..|cs|] == cs;
  }

  /** Targets nobody spoke of: settled absent once every router answered, else owed. */
  function CompleteTargets(c: Contribution, targets: set<Target>, allAnswered: bool): Contribution {
    c.(coverage := map t | t in c.coverage.Keys + targets ::
                     if t in c.coverage then c.coverage[t] else if allAnswered then SettledAbsent else Unresolved,
       unresolved := c.unresolved + if allAnswered then {} else targets - c.coverage.Keys)
  }

  // ----- What combining means -----

  ghost predicate Speaks(cs: seq<Contribution>, t: Target) {
    exists i :: 0 <= i < |cs| && t in cs[i].coverage
  }

  ghost predicate SomeCovers(cs: seq<Contribution>, t: Target) {
    exists i :: 0 <= i < |cs| && t in cs[i].coverage && cs[i].coverage[t].Covered?
  }

  ghost predicate Covers(cs: seq<Contribution>, t: Target, relay: RelayUrl) {
    exists i :: 0 <= i < |cs| && t in cs[i].coverage && cs[i].coverage[t].Covered? && relay in cs[i].coverage[t].relays
  }

  /** A target is covered by exactly the relays some router covers it with, unresolved
      where routers spoke without covering it, and otherwise absent. */
  lemma {:induction false} CombineMeaning(cs: seq<Contribution>, t: Target)
    ensures t in Combine(cs).coverage <==> Speaks(cs, t)
    ensures Speaks(cs, t) ==> (Combine(cs).coverage[t].Covered? <==> SomeCovers(cs, t))
    ensures Speaks(cs, t) && !SomeCovers(cs, t) ==> Combine(cs).coverage[t] == Unresolved
    ensures SomeCovers(cs, t) ==> forall relay :: relay in Combine(cs).coverage[t].relays <==> Covers(cs, t, relay)
  {
    if cs != [] {
      var n := |cs| - 1;
      var before, last := cs[..n], cs[n];
      CombineMeaning(before, t);
      assert forall i :: 0 <= i < n ==> before[i] == cs[i];
      assert Speaks(cs, t) <==> Speaks(before, t) || t in last.coverage by {
        if i :| 0 <= i < n && t in before[i].coverage {
          assert t in cs[i].coverage;
        }
      }
      assert SomeCovers(cs, t) <==> SomeCovers(before, t) || (t in last.coverage && last.coverage[t].Covered?) by {
        if i :| 0 <= i < n && t in before[i].coverage && before[i].coverage[t].Covered? {
          assert cs[i].coverage[t].Covered?;
        }
      }
      forall relay
        ensures Covers(cs, t, relay)
                <==> Covers(before, t, relay)
                     || (t in last.coverage && last.coverage[t].Covered? && relay in last.coverage[t].relays)
      {
        if i :| 0 <= i < n && t in before[i].coverage && before[i].coverage[t].Covered?
                && relay in before[i].coverage[t].relays {
          assert relay in cs[i].coverage[t].relays;
        }
      }
    }
  }

  lemma {:induction false} CombineLists(cs: seq<Contribution>, k: nat)
    requires k <= |cs|
    ensures Combine(cs[..k]).destinations <= Combine(cs).destinations
    ensures Combine(cs[..k]).shortfalls <= Combine(cs).shortfalls
  {
    if k < |cs| {
      assert cs[..|cs| - 1][..k] == cs[..k];
      CombineLists(cs[..|cs| - 1], k);
    } else {
      assert cs[..k] == cs;
    }
  }

  lemma SubsetSize<T>(a: set<T>, b: set<T>)
    requires a <= b
    ensures |a| <= |b|
  {
    assert |b - a| == |b| - |a|;
  }

  /** What an earlier part of the chain combines to never exceeds what the whole chain does. */
  lemma PrefixWithinBounds(cs: seq<Contribution>, k: nat)
    requires k <= |cs| && WithinBounds(Combine(cs))
    ensures WithinBounds(Combine(cs[..k]))
  {
    CombineLists(cs, k);
    var part, whole := Combine(cs[..k]), Combine(cs);
    assert forall d :: d in part.destinations ==> d in whole.destinations;
    assert forall x :: x in part.shortfalls ==> x in whole.shortfalls;
    SubsetSize(Sessions(part.destinations), Sessions(whole.destinations));
    forall t | t in part.coverage && part.coverage[t].Covered?
      ensures |part.coverage[t].relays| <= MAX_COVERED_SESSIONS
    {
      PrefixCovers(cs, k, t);
      SubsetSize(part.coverage[t].relays, whole.coverage[t].relays);
    }
  }

  lemma PrefixCovers(cs: seq<Contribution>, k: nat, t: Target)
    requires k <= |cs| && t in Combine(cs[..k]).coverage && Combine(cs[..k]).coverage[t].Covered?
    ensures t in Combine(cs).coverage && Combine(cs).coverage[t].Covered?
    ensures Combine(cs[..k]).coverage[t].relays <= Combine(cs).coverage[t].relays
  {
    CombineMeaning(cs[..k], t);
    assert SomeCovers(cs, t) && Speaks(cs, t) by {
      var i :| 0 <= i < k && t in cs[..k][i].coverage && cs[..k][i].coverage[t].Covered?;
      assert t in cs[i].coverage && cs[i].coverage[t].Covered?;
    }
    CombineMeaning(cs, t);
    forall relay | relay in Combine(cs[..k]).coverage[t].relays
      ensures relay in Combine(cs).coverage[t].relays
    {
      CoversMore(cs, k, t, relay);
    }
  }

  lemma CoversMore(cs: seq<Contribution>, k: nat, t: Target, relay: RelayUrl)
    requires k <= |cs| && Covers(cs[..k], t, relay)
    ensures Covers(cs, t, relay)
  {
    var j :| 0 <= j < k && t in cs[..k][j].coverage && cs[..k][j].coverage[t].Covered?
             && relay in cs[..k][j].coverage[t].relays;
    assert relay in cs[j].coverage[t].relays;
  }

  lemma CompleteWithinBounds(c: Contribution, targets: set<Target>, allAnswered: bool)
    ensures WithinBounds(CompleteTargets(c, targets, allAnswered)) <==> WithinBounds(c)
  {
    var full := CompleteTargets(c, targets, allAnswered);
    assert forall t :: t in c.coverage ==> t in full.coverage && full.coverage[t] == c.coverage[t];
  }

  // ----- The plan -----

  function Reaching(ds: seq<Destination>, t: Target): set<RelayUrl> {
    set d | d in ds && t in d.targets :: d.session
  }

  function Aims(ds: seq<Destination>): set<Target> {
    set d, t | d in ds && t in d.targets :: t
  }

  function RelayOf(ds: seq<Destination>, s: RelayUrl): PlannedRelay {
    PlannedRelay(s, (set d, t | d in ds && d.session == s && t in d.targets :: t),
                 (set d | d in ds && d.session == s :: (d.router, d.reason)))
  }

  /** Contributed coverage, joined with the destinations aimed at the target. */
  function PlannedState(coverage: map<Target, Coverage>, ds: seq<Destination>, t: Target): Coverage {
    if t in Aims(ds)
    then Covered(Reaching(ds, t) + if Held(coverage, t).Covered? then coverage[t].relays else {})
    else Held(coverage, t)
  }

  function PlannedCoverage(coverage: map<Target, Coverage>, ds: seq<Destination>): map<Target, Coverage> {
    map t | t in coverage.Keys + Aims(ds) :: PlannedState(coverage, ds, t)
  }

  /** One relay per session with every target and reason it was chosen for; a target is
      owed when a router owes it or its contributed coverage is unresolved. */
  function PlanOf(revision: nat, c: Contribution): Plan {
    Plan(
      revision,
      RelaysOf(c.destinations),
      PlannedCoverage(c.coverage, c.destinations),
      c.unresolved + (set t | t in c.coverage && c.coverage[t] == Unresolved),
      c.shortfalls)
  }

  /** Adds one relay to every target of its destination. */
  method CoverTargets(coverage: map<Target, Coverage>, targets: set<Target>, session: RelayUrl)
    returns (r: map<Target, Coverage>)
    ensures r == MergeCoverage(coverage, map t | t in targets :: Covered({session}))
  {
    r := MergeInto(coverage, map t | t in targets :: Covered({session}));
  }

  method FromContribution(revision: nat, c: Contribution) returns (r: Result<Plan, RouterError>)
    ensures r.Ok? <==> WithinBounds(c)
    ensures r.Ok? ==> r.value == PlanOf(revision, c)
  {
    var bounds := ValidateBounds(c);
    if bounds.Err? {
      return Err(bounds.error);
    }
    var destinations, coverage := PlanDestinations(c);
    r := Ok(Plan(revision, destinations, coverage,
                 c.unresolved + (set t | t in c.coverage && c.coverage[t] == Unresolved), c.shortfalls));
  }

  function RelaysOf(ds: seq<Destination>): map<RelayUrl, PlannedRelay> {
    map s | s in Sessions(ds) :: RelayOf(ds, s)
  }

  method PlanDestinations(c: Contribution)
    returns (destinations: map<RelayUrl, PlannedRelay>, coverage: map<Target, Coverage>)
    ensures destinations == RelaysOf(c.destinations) && coverage == PlannedCoverage(c.coverage, c.destinations)
  {
    destinations, coverage := map[], c.coverage;
    for i := 0 to |c.destinations|
      invariant destinations == RelaysOf(c.destinations[..i])
      invariant coverage == PlannedCoverage(c.coverage, c.destinations[..i])
    {
      var d := c.destinations[i];
      assert c.destinations[..i + 1] == c.destinations[..i] + [d];
      var known := if d.session in destinations then destinations[d.session] else PlannedRelay(d.session, {}, {});
      RelaysMore(c.destinations[..i], d);
      OneMoreAim(c.coverage, c.destinations[..i], d);
      destinations := destinations[d.session := known.(targets := known.targets + d.targets,
                                                       reasons := known.reasons + {(d.router, d.reason)})];
      coverage := CoverTargets(coverage, d.targets, d.session);
    }
    assert c.destinations[..|c.destinations|] == c.destinations;
  }

  lemma RelaysMore(ds: seq<Destination>, d: Destination)
    ensures var known := if d.session in RelaysOf(ds) then RelaysOf(ds)[d.session] else PlannedRelay(d.session, {}, {});
            RelaysOf(ds + [d])
            == RelaysOf(ds)[d.session := known.(targets := known.targets + d.targets,
                                                reasons := known.reasons + {(d.router, d.reason)})]
  {
    OneMoreRelay(ds, d);
  }

  lemma OneMoreRelay(ds: seq<Destination>, d: Destination)
    ensures Sessions(ds + [d]) == Sessions(ds) + {d.session}
    ensures forall s: RelayUrl :: s != d.session ==> RelayOf(ds + [d], s) == RelayOf(ds, s)
    ensures RelayOf(ds + [d], d.session)
            == PlannedRelay(d.session, RelayOf(ds, d.session).targets + d.targets,
                            RelayOf(ds, d.session).reasons + {(d.router, d.reason)})
    ensures d.session !in Sessions(ds) ==> RelayOf(ds, d.session) == PlannedRelay(d.session, {}, {})
  {
    assert forall x :: x in ds + [d] <==> x in ds || x == d;
  }

  lemma OneMoreAim(coverage: map<Target, Coverage>, ds: seq<Destination>, d: Destination)
    ensures PlannedCoverage(coverage, ds + [d])
            == MergeCoverage(PlannedCoverage(coverage, ds), map t | t in d.targets :: Covered({d.session}))
  {
    var before, after := PlannedCoverage(coverage, ds), PlannedCoverage(coverage, ds + [d]);
    var aimed := map t | t in d.targets :: Covered({d.session});
    AimsMore(ds, d);
    forall t | t in after
      ensures after[t] == MergeCoverage(before, aimed)[t]
    {
      OneMoreState(coverage, ds, d, t);
      assert Held(before, t) == PlannedState(coverage, ds, t);
    }
    assert after.Keys == MergeCoverage(before, aimed).Keys;
  }

  lemma OneMoreState(coverage: map<Target, Coverage>, ds: seq<Destination>, d: Destination, t: Target)
    ensures PlannedState(coverage, ds + [d], t)
            == if t in d.targets then MergeState(PlannedState(coverage, ds, t), Covered({d.session}))
               else PlannedState(coverage, ds, t)
  {
    AimsMore(ds, d);
    ReachingMore(ds, d, t);
    if t in d.targets {
      var own := if Held(coverage, t).Covered? then coverage[t].relays else {};
      assert Reaching(ds, t) + {d.session} + own == Reaching(ds, t) + own + {d.session};
    }
  }

  lemma AimsMore(ds: seq<Destination>, d: Destination)
    ensures Aims(ds + [d]) == Aims(ds) + d.targets
  {
    assert forall x :: x in ds + [d] <==> x in ds || x == d;
  }

  lemma ReachingMore(ds: seq<Destination>, d: Destination, t: Target)
    ensures Reaching(ds + [d], t) == Reaching(ds, t) + if t in d.targets then {d.session} else {}
    ensures t !in Aims(ds) ==> Reaching(ds, t) == {}
  {
    assert forall x :: x in ds + [d] <==> x in ds || x == d;
  }
}
