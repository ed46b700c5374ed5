/** The standard plan is a function of the demand set, not of the slice it arrives in. */
module OrderFreedom {
  import opened Prelude
  import opened Orders
  import opened Events
  import opened Filters
  import opened Demand
  import opened Grouping
  import opened Planner
  import opened PlanFacts

  function WithinLimit(constraints: Constraints): RelayDemand -> seq<RelayDemand> {
    (d: RelayDemand) => if OverLimit(d, constraints) then [] else [d]
  }

  function LimitShortfall(constraints: Constraints): RelayDemand -> seq<Shortfall> {
    (d: RelayDemand) =>
      if OverLimit(d, constraints)
      then [Shortfall(d.id, FilterLimitExceeded(d.filter.limit.value, constraints.maxFilterLimit.value))]
      else []
  }

  lemma {:induction false} AdmissibleSieves(demand: seq<RelayDemand>, constraints: Constraints)
    ensures Admissible(demand, constraints) == FlatMap(demand, WithinLimit(constraints))
    ensures LimitShortfalls(demand, constraints) == FlatMap(demand, LimitShortfall(constraints))
  {
    if demand != [] {
      AdmissibleSieves(demand[1..], constraints);
    }
  }

  lemma SievePermutation(a: seq<RelayDemand>, b: seq<RelayDemand>, constraints: Constraints, installed: Installed)
    requires multiset(a) == multiset(b)
    ensures multiset(Admissible(a, constraints)) == multiset(Admissible(b, constraints))
    ensures multiset(Pending(a, installed)) == multiset(Pending(b, installed))
    ensures multiset(LimitShortfalls(a, constraints)) == multiset(LimitShortfalls(b, constraints))
  {
    AdmissibleSieves(a, constraints);
    AdmissibleSieves(b, constraints);
    PendingSieves(a, installed);
    PendingSieves(b, installed);
    FlatMapPermutation(a, b, WithinLimit(constraints));
    FlatMapPermutation(a, b, LimitShortfall(constraints));
    FlatMapPermutation(a, b, Unhosted(installed));
  }

  lemma GroupPermutation(w: Wire, a: seq<RelayDemand>, b: seq<RelayDemand>, constraints: Constraints)
    requires SizeGrows(w) && OrderedTexts(w) && DistinctIds(a) && multiset(a) == multiset(b)
    ensures Group(w, a, constraints) == Group(w, b, constraints)
  {
    DemandOrderTotal(w);
    DemandOrderSeparates(w, a);
    SortByPermutation(a, b, DemandOrder(w));
  }

  lemma AttachPermutation(a: seq<RelayDemand>, b: seq<RelayDemand>, installed: Installed)
    requires multiset(a) == multiset(b)
    ensures Attach(a, installed) == Attach(b, installed) && Ids(a) == Ids(b)
  {
    forall d
      ensures d in a <==> d in b
    {
      MultisetMember(a, b, d);
    }
    forall id
      ensures Hosted(a, installed, id) == Hosted(b, installed, id)
    {
    }
  }

  lemma OwnersById(a: seq<RelayDemand>, b: seq<RelayDemand>, installed: Installed, attached: Owners)
    requires Ids(a) == Ids(b)
    ensures SurvivingOwners(a, installed, attached) == SurvivingOwners(b, installed, attached)
  {
    assert forall id :: id in installed ==> Still(a, installed, attached, id) == Still(b, installed, attached, id);
  }

  lemma StageOfPermutation(w: Wire, constraints: Constraints, installed: Installed, admissibleA: seq<RelayDemand>,
                           admissibleB: seq<RelayDemand>, pendingA: seq<RelayDemand>, pendingB: seq<RelayDemand>)
    requires SizeGrows(w) && StandardGrouper(w, constraints)(pendingA) == StandardGrouper(w, constraints)(pendingB)
    requires Attach(admissibleA, installed) == Attach(admissibleB, installed) && Ids(admissibleA) == Ids(admissibleB)
    ensures StageOf(w, constraints, installed, admissibleA, pendingA)
            == StageOf(w, constraints, installed, admissibleB, pendingB)
                 .(admissible := admissibleA, pending := pendingA)
  {
    StandardRegroups(w, constraints);
    var group := StandardGrouper(w, constraints);
    var fitted := FitMessageBound(w, group, group(pendingA), constraints);
    var (kept, attached) := FoldIntoRunning(JoinAll([], fitted.carried), installed, Attach(admissibleA, installed));
    OwnersById(admissibleA, admissibleB, installed, attached);
  }

  lemma StagePermutation(w: Wire, a: seq<RelayDemand>, b: seq<RelayDemand>, constraints: Constraints,
                         installed: Installed)
    requires SizeGrows(w) && OrderedTexts(w) && DistinctIds(a) && multiset(a) == multiset(b)
    ensures var s, t := Stage(w, a, constraints, installed), Stage(w, b, constraints, installed);
            s == t.(admissible := s.admissible, pending := s.pending)
  {
    var admissibleA, admissibleB := Admissible(a, constraints), Admissible(b, constraints);
    var pendingA, pendingB := Pending(admissibleA, installed), Pending(admissibleB, installed);
    SievePermutation(a, b, constraints, installed);
    SievePermutation(admissibleA, admissibleB, constraints, installed);
    AdmissibleLoad(a, constraints);
    PendingLoad(admissibleA, installed);
    SubDistinctIds(pendingA, a);
    GroupPermutation(w, pendingA, pendingB, constraints);
    AttachPermutation(admissibleA, admissibleB, installed);
    StageOfPermutation(w, constraints, installed, admissibleA, admissibleB, pendingA, pendingB);
  }

  /** Any arrangement of one demand set gets the same open, retain, close and
      attribution, and the same shortfalls up to their order. */
  lemma PlanIgnoresOrder(w: Wire, relay: RelayUrl, a: seq<RelayDemand>, b: seq<RelayDemand>, constraints: Constraints,
                         installed: Installed, revision: nat)
    requires SizeGrows(w) && OrderedTexts(w) && multiset(a) == multiset(b)
    ensures var p := StandardPlan(w, relay, a, constraints, installed, revision);
            var q := StandardPlan(w, relay, b, constraints, installed, revision);
            && (p.Ok? <==> q.Ok?)
            && (p.Ok? <==> DistinctIds(a))
            && (p.Ok? ==> p.value == q.value.(shortfalls := p.value.shortfalls)
                          && multiset(p.value.shortfalls) == multiset(q.value.shortfalls))
  {
    FirstDuplicateMeaning(a, {});
    FirstDuplicateMeaning(b, {});
    if DistinctIds(a) {
      DistinctIdsPermutation(a, b);
      PlanOfStages(w, relay, a, constraints, installed, revision);
      PlanOfStages(w, relay, b, constraints, installed, revision);
      StagePermutation(w, a, b, constraints, installed);
      SievePermutation(a, b, constraints, installed);
      SamePlan(w, relay, a, b, constraints, installed, revision,
               Stage(w, a, constraints, installed), Stage(w, b, constraints, installed));
    } else if DistinctIds(b) {
      DistinctIdsPermutation(b, a);
    }
  }

  lemma SamePlan(w: Wire, relay: RelayUrl, a: seq<RelayDemand>, b: seq<RelayDemand>, constraints: Constraints,
                 installed: Installed, revision: nat, s: Stages, t: Stages)
    requires s.openCount <= |s.kept| && RefusedSingly(s, constraints)
    requires s == t.(admissible := s.admissible, pending := s.pending)
    requires multiset(LimitShortfalls(a, constraints)) == multiset(LimitShortfalls(b, constraints))
    ensures RefusedSingly(t, constraints)
    ensures var p := PlanFrom(w, relay, a, constraints, installed, revision, s);
            var q := PlanFrom(w, relay, b, constraints, installed, revision, t);
            p == q.(shortfalls := p.shortfalls) && multiset(p.shortfalls) == multiset(q.shortfalls)
  {
    SameTail(LimitShortfalls(a, constraints), LimitShortfalls(b, constraints),
             TooLarge(w, s.fitted.refused, constraints), ResidualShortfalls(s, constraints));
    assert ResidualShortfalls(t, constraints) == ResidualShortfalls(s, constraints);
  }

  lemma SameTail(a: seq<Shortfall>, b: seq<Shortfall>, x: seq<Shortfall>, y: seq<Shortfall>)
    requires multiset(a) == multiset(b)
    ensures multiset(a + x + y) == multiset(b + x + y)
  {
  }
}
