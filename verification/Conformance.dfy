/** The conformance rules any planner answers to, as one executable check, and the
    proof that the standard planner meets them. */
module Conformance {
  import opened Prelude
  import opened Orders
  import opened Events
  import opened Filters
  import opened Demand
  import opened Grouping
  import opened Planner
  import opened PlanFacts

  datatype ConformanceError =
    | WrongRelay
    | OverlappingBuckets(id: SubscriptionId)
    | UnknownInstalled(id: SubscriptionId)
    | AttributionMismatch
    | EmptyFilters(position: nat)
    | FilterAttributionMismatch(id: SubscriptionId)
    | DemandUnaccounted(demand: DemandId)
    | DemandInvented(demand: DemandId)
    | RunningSubscriptionWithdrawn(id: SubscriptionId, stillWanted: DemandId)
    | DuplicateFilters(first: SubscriptionId, second: nat)
    | DuplicatePlannedFilters(position: nat)
    | DeclaredSubscriptionsExceeded(installed: nat, maximum: nat)

  // ----- The rules -----

  predicate RelayRule(relay: RelayUrl, plan: Plan) {
    plan.relay == relay
  }

  ghost predicate BucketRule(installed: Installed, plan: Plan) {
    && Distinct(plan.retain + plan.close)
    && forall id :: id in plan.retain + plan.close ==> id in installed
  }

  predicate AttributionRule(plan: Plan) {
    plan.attribution.Keys == Elements(plan.retain)
  }

  ghost predicate FilterRule(installed: Installed, plan: Plan) {
    && (forall p :: p in plan.open ==> p.filters != [])
    && (forall id :: id in plan.retain ==>
          && id in installed && id in plan.attribution
          && plan.attribution[id].filters == installed[id].filters)
  }

  /** The demand a plan serves, on what it retains and on what it opens. */
  function Served(plan: Plan): set<DemandId> {
    (set id, d | id in plan.attribution && d in plan.attribution[id].serves :: d) + OpenIds(plan.open)
  }

  ghost predicate DemandRule(demand: seq<RelayDemand>, plan: Plan) {
    && Served(plan) <= Ids(demand)
    && Ids(demand) <= Served(plan) + ShortIds(plan.shortfalls)
    && ShortIds(plan.shortfalls) <= Ids(demand)
  }

  /** CR-1: nothing still wanted is withdrawn. */
  ghost predicate RunningRule(demand: seq<RelayDemand>, installed: Installed, plan: Plan) {
    forall id :: id in plan.close && id in installed ==> installed[id].serves * Ids(demand) == {}
  }

  /** CR-2: nothing is opened twice, and nothing already on the wire is opened again. */
  ghost predicate DistinctFilterRule(installed: Installed, plan: Plan) {
    && (forall id, p :: id in plan.retain && id in installed && p in plan.open ==> installed[id].filters != p.filters)
    && (forall i, j :: 0 <= i < j < |plan.open| ==> plan.open[i].filters != plan.open[j].filters)
  }

  predicate LimitRule(constraints: Constraints, plan: Plan) {
    constraints.maxSubscriptions.None?
    || |plan.open| <= (if constraints.maxSubscriptions.value <= |plan.retain| then 0
                       else constraints.maxSubscriptions.value - |plan.retain|)
  }

  ghost predicate Conforms(relay: RelayUrl, demand: seq<RelayDemand>, constraints: Constraints, installed: Installed,
                           plan: Plan) {
    && RelayRule(relay, plan)
    && BucketRule(installed, plan)
    && AttributionRule(plan)
    && FilterRule(installed, plan)
    && DemandRule(demand, plan)
    && RunningRule(demand, installed, plan)
    && DistinctFilterRule(installed, plan)
    && LimitRule(constraints, plan)
  }

  // ----- The executable check -----

  method CheckBuckets(installed: Installed, plan: Plan) returns (r: Option<ConformanceError>)
    ensures r.None? <==> BucketRule(installed, plan)
    ensures r.Some? ==> r.value.OverlappingBuckets? || (r.value.UnknownInstalled? && r.value.id !in installed)
  {
    var ids := plan.retain + plan.close;
    var seen: set<SubscriptionId> := {};
    for i := 0 to |ids|
      invariant seen == Elements(ids[..i])
      invariant Distinct(ids[..i])
      invariant forall id :: id in ids[..i] ==> id in installed
    {
      assert ids[..i + 1] == ids[..i] + [ids[i]];
      if ids[i] in seen {
        var k :| 0 <= k < i && ids[k] == ids[i];
        return Some(OverlappingBuckets(ids[i]));
      }
      if ids[i] !in installed {
        return Some(UnknownInstalled(ids[i]));
      }
      seen := seen + {ids[i]};
    }
    assert ids[..|ids|] == ids;
    return None;
  }

  method CheckFilters(installed: Installed, plan: Plan) returns (r: Option<ConformanceError>)
    ensures r.None? <==> FilterRule(installed, plan)
    ensures r.Some? ==> r.value.EmptyFilters? || r.value.UnknownInstalled? || r.value.AttributionMismatch?
                        || r.value.FilterAttributionMismatch?
  {
    for i := 0 to |plan.open|
      invariant forall k :: 0 <= k < i ==> plan.open[k].filters != []
    {
      if plan.open[i].filters == [] {
        assert plan.open[i] in plan.open;
        return Some(EmptyFilters(i));
      }
    }
    for i := 0 to |plan.retain|
      invariant forall k :: 0 <= k < i ==>
        && plan.retain[k] in installed && plan.retain[k] in plan.attribution
        && plan.attribution[plan.retain[k]].filters == installed[plan.retain[k]].filters
    {
      var id := plan.retain[i];
      assert id in plan.retain;
      if id !in installed {
        return Some(UnknownInstalled(id));
      }
      if id !in plan.attribution {
        return Some(AttributionMismatch);
      }
      if plan.attribution[id].filters != installed[id].filters {
        return Some(FilterAttributionMismatch(id));
      }
    }
    return None;
  }

  /** The lowest identity of `ids` that is not in `allowed`. */
  method FirstOutside(ids: set<DemandId>, allowed: set<DemandId>) returns (r: Option<DemandId>)
    ensures r.None? <==> ids <= allowed
    ensures r.Some? ==> r.value in ids && r.value !in allowed
  {
    var ascending := AscendingIds(ids);
    for i := 0 to |ascending|
      invariant forall k :: 0 <= k < i ==> ascending[k] in allowed
    {
      if ascending[i] !in allowed {
        return Some(ascending[i]);
      }
    }
    forall id | id in ids
      ensures id in allowed
    {
      assert id in ascending;
    }
    return None;
  }

  method CheckDemand(demand: seq<RelayDemand>, plan: Plan) returns (r: Option<ConformanceError>)
    ensures r.None? <==> DemandRule(demand, plan)
    ensures r.Some? ==> (r.value.DemandInvented? && r.value.demand !in Ids(demand))
                        || (r.value.DemandUnaccounted? && r.value.demand in Ids(demand)
                            && r.value.demand !in Served(plan) + ShortIds(plan.shortfalls))
  {
    var requested, served, short := Ids(demand), Served(plan), ShortIds(plan.shortfalls);
    var outside := FirstOutside(served, requested);
    if outside.Some? {
      return Some(DemandInvented(outside.value));
    }
    outside := FirstOutside(requested, served + short);
    if outside.Some? {
      return Some(DemandUnaccounted(outside.value));
    }
    outside := FirstOutside(short, requested);
    if outside.Some? {
      return Some(DemandInvented(outside.value));
    }
    return None;
  }

  method CheckRunning(demand: seq<RelayDemand>, installed: Installed, plan: Plan) returns (r: Option<ConformanceError>)
    ensures r.None? <==> RunningRule(demand, installed, plan)
    ensures r.Some? ==> && r.value.RunningSubscriptionWithdrawn? && r.value.id in plan.close && r.value.id in installed
                        && r.value.stillWanted in installed[r.value.id].serves * Ids(demand)
  {
    var requested := Ids(demand);
    for i := 0 to |plan.close|
      invariant forall k :: 0 <= k < i && plan.close[k] in installed ==>
                              installed[plan.close[k]].serves * requested == {}
    {
      var id := plan.close[i];
      if id in installed {
        var wanted := FirstOutside(installed[id].serves * requested, {});
        if wanted.Some? {
          return Some(RunningSubscriptionWithdrawn(id, wanted.value));
        }
      }
    }
    return None;
  }

  method CheckDistinctFilters(installed: Installed, plan: Plan) returns (r: Option<ConformanceError>)
    ensures r.None? <==> DistinctFilterRule(installed, plan)
    ensures r.Some? ==> r.value.DuplicateFilters? || r.value.DuplicatePlannedFilters?
  {
    for i := 0 to |plan.open|
      invariant forall id, k :: id in plan.retain && id in installed && 0 <= k < i ==>
                                  installed[id].filters != plan.open[k].filters
      invariant forall k, l :: 0 <= k < l < i ==> plan.open[k].filters != plan.open[l].filters
    {
      assert plan.open[i] in plan.open;
      for k := 0 to |plan.retain|
        invariant forall j :: 0 <= j < k && plan.retain[j] in installed ==>
                                installed[plan.retain[j]].filters != plan.open[i].filters
      {
        var id := plan.retain[k];
        assert id in plan.retain;
        if id in installed && installed[id].filters == plan.open[i].filters {
          return Some(DuplicateFilters(id, i));
        }
      }
      for k := 0 to i
        invariant forall j :: 0 <= j < k ==> plan.open[j].filters != plan.open[i].filters
      {
        if plan.open[k].filters == plan.open[i].filters {
          return Some(DuplicatePlannedFilters(i));
        }
      }
    }
    return None;
  }

  /** The conformance kit: `None` exactly when every rule holds. */
  method ValidatePlan(relay: RelayUrl, demand: seq<RelayDemand>, constraints: Constraints, installed: Installed,
                      plan: Plan)
    returns (r: Option<ConformanceError>)
    ensures r.None? <==> Conforms(relay, demand, constraints, installed, plan)
    ensures r == Some(WrongRelay) <==> plan.relay != relay
    ensures r.Some? && r.value.RunningSubscriptionWithdrawn? ==> !RunningRule(demand, installed, plan)
  {
    if plan.relay != relay {
      return Some(WrongRelay);
    }
    r := CheckBuckets(installed, plan);
    if r.Some? {
      return;
    }
    if plan.attribution.Keys != Elements(plan.retain) {
      return Some(AttributionMismatch);
    }
    r := CheckFilters(installed, plan);
    if r.Some? {
      return;
    }
    r := CheckDemand(demand, plan);
    if r.Some? {
      return;
    }
    r := CheckRunning(demand, installed, plan);
    if r.Some? {
      return;
    }
    r := CheckDistinctFilters(installed, plan);
    if r.Some? {
      return;
    }
    if !LimitRule(constraints, plan) {
      return Some(DeclaredSubscriptionsExceeded(|plan.open| + |plan.retain|, constraints.maxSubscriptions.value));
    }
  }

  // ----- The standard planner conforms -----

  /** Every running subscription that serves a requested demand keeps an owner
      whose own limit the relay admits. A caller can check this before planning. */
  ghost predicate NoneStranded(demand: seq<RelayDemand>, constraints: Constraints, installed: Installed) {
    forall id :: id in installed && installed[id].serves * Ids(demand) != {} ==>
                   Kept(demand, constraints, installed, id)
  }

  ghost predicate Kept(demand: seq<RelayDemand>, constraints: Constraints, installed: Installed, id: SubscriptionId) {
    exists d :: d in demand && !OverLimit(d, constraints)
                && (Serves(installed, id, d.id) || HostFor(d, installed) == Some(id))
  }

  lemma OwnersAreKept(w: Wire, demand: seq<RelayDemand>, constraints: Constraints, installed: Installed,
                      s: Stages, id: SubscriptionId)
    requires StageSound(w, demand, constraints, installed, s)
    ensures id in s.owners <==> id in installed && Kept(demand, constraints, installed, id)
  {
    var admissible := Admissible(demand, constraints);
    OwnersKeys(admissible, installed, id);
    if d :| d in demand && !OverLimit(d, constraints)
            && (Serves(installed, id, d.id) || HostFor(d, installed) == Some(id)) {
      AdmissibleMember(demand, constraints, d);
    }
    if d :| d in admissible && (Serves(installed, id, d.id) || HostFor(d, installed) == Some(id)) {
      AdmissibleMember(demand, constraints, d);
    }
  }

  lemma AssembledShape(relay: RelayUrl, revision: nat, open: seq<Attributed>, constraints: Constraints,
                       installed: Installed, owners: Owners, shortfalls: seq<Shortfall>)
    requires owners.Keys <= installed.Keys
    ensures var plan := Assemble(relay, revision, open, constraints, installed, owners, shortfalls);
            && RelayRule(relay, plan) && BucketRule(installed, plan) && AttributionRule(plan)
            && |plan.retain| == |owners|
            && (forall id :: id in plan.retain <==> id in owners)
            && (forall id :: id in plan.close <==> id in installed && id !in owners)
            && plan.attribution.Keys == owners.Keys
            && (forall id :: id in plan.retain ==>
                  id in installed && id in plan.attribution && plan.attribution[id].filters == installed[id].filters)
  {
    var plan := Assemble(relay, revision, open, constraints, installed, owners, shortfalls);
    assert owners.Keys * installed.Keys == owners.Keys;
    assert |owners.Keys| == |owners|;
    assert |plan.retain| == |owners| && Distinct(plan.retain) && Distinct(plan.close) by {
      AscendingSorted(owners.Keys * installed.Keys);
      AscendingSorted(installed.Keys - owners.Keys);
    }
    DistinctJoin(plan.retain, plan.close);
  }

  lemma DistinctJoin<T>(a: seq<T>, b: seq<T>)
    requires Distinct(a) && Distinct(b) && forall x :: x in a ==> x !in b
    ensures Distinct(a + b)
  {
    forall i, j | 0 <= i < j < |a + b|
      ensures (a + b)[i] != (a + b)[j]
    {
      if i < |a| <= j {
        assert (a + b)[i] in a && (a + b)[j] in b;
      }
    }
  }

  lemma OwnersServe(demand: seq<RelayDemand>, constraints: Constraints, installed: Installed, d: RelayDemand)
    requires d in demand && !OverLimit(d, constraints) && HostFor(d, installed).Some?
    ensures var admissible := Admissible(demand, constraints);
            var owners := SurvivingOwners(admissible, installed, Attach(admissible, installed));
            exists id :: id in owners && d.id in owners[id]
  {
    var admissible := Admissible(demand, constraints);
    AdmissibleMember(demand, constraints, d);
    var id := HostFor(d, installed).value;
    HostForMeaning(d, installed);
    OwnersMeaning(admissible, installed, id, d.id);
    assert d.id in Still(admissible, installed, Attach(admissible, installed), id);
    assert id in SurvivingOwners(admissible, installed, Attach(admissible, installed));
  }

  lemma OwnersRequested(demand: seq<RelayDemand>, constraints: Constraints, installed: Installed, id: SubscriptionId,
                        d: DemandId)
    requires var admissible := Admissible(demand, constraints);
             var owners := SurvivingOwners(admissible, installed, Attach(admissible, installed));
             id in owners && d in owners[id]
    ensures d in Ids(demand)
  {
    var admissible := Admissible(demand, constraints);
    OwnersMeaning(admissible, installed, id, d);
    var m :| m in admissible && m.id == d;
    AdmissibleMember(demand, constraints, m);
  }

  lemma CarriedRequested(w: Wire, demand: seq<RelayDemand>, constraints: Constraints, installed: Installed, s: Stages)
    requires StageSound(w, demand, constraints, installed, s)
    ensures CarriedIds(s.kept) <= Ids(demand) && CarriedIds(s.fitted.refused) <= Ids(demand)
  {
    forall m | m in multiset(s.pending)
      ensures m.id in Ids(demand)
    {
      PendingMember(s.admissible, installed, m);
      AdmissibleMember(demand, constraints, m);
    }
    forall m | m in Load(s.kept) || m in Load(s.fitted.refused)
      ensures m.id in Ids(demand)
    {
      assert m in multiset(s.pending);
    }
  }

  lemma CarriedSplit(candidates: seq<Candidate>, n: nat)
    requires n <= |candidates|
    ensures CarriedIds(candidates) == CarriedIds(candidates[..n]) + CarriedIds(candidates[n..])
  {
    assert candidates == candidates[..n] + candidates[n..];
    LoadSplit(candidates[..n], candidates[n..]);
  }

  /** C8, C9: every demand is served or reported, and none is invented. */
  lemma PlanAccounts(w: Wire, relay: RelayUrl, demand: seq<RelayDemand>, constraints: Constraints,
                     installed: Installed, revision: nat, s: Stages)
    requires SizeGrows(w) && DistinctIds(demand) && StageSound(w, demand, constraints, installed, s)
    ensures DemandRule(demand, PlanFrom(w, relay, demand, constraints, installed, revision, s))
  {
    var plan := PlanFrom(w, relay, demand, constraints, installed, revision, s);
    ShortfallsMeaning(w, s, demand, constraints);
    OpenIdsMeaning(w, s.kept[..s.openCount], constraints);
    CarriedSplit(s.kept, s.openCount);
    CarriedRequested(w, demand, constraints, installed, s);
    forall id, d | id in plan.attribution && d in plan.attribution[id].serves
      ensures d in Ids(demand)
    {
      OwnersRequested(demand, constraints, installed, id, d);
    }
    forall d | d in demand
      ensures d.id in Served(plan) + ShortIds(plan.shortfalls)
    {
      if OverLimit(d, constraints) {
      } else if HostFor(d, installed).None? {
        PendingIsCarried(w, demand, constraints, installed, s, d);
      } else {
        OwnersServe(demand, constraints, installed, d);
        var id :| id in s.owners && d.id in s.owners[id];
        assert id in plan.attribution && d.id in plan.attribution[id].serves;
      }
    }
  }

  lemma PendingIsCarried(w: Wire, demand: seq<RelayDemand>, constraints: Constraints, installed: Installed, s: Stages,
                         d: RelayDemand)
    requires StageSound(w, demand, constraints, installed, s) && d in demand
    requires !OverLimit(d, constraints) && HostFor(d, installed).None?
    ensures d.id in CarriedIds(s.kept) + CarriedIds(s.fitted.refused)
  {
    PendingOf(demand, constraints, installed, d);
    assert d in multiset(s.pending);
    assert d in Load(s.kept) || d in Load(s.fitted.refused);
  }

  lemma OpenAvoidsRunning(w: Wire, kept: seq<Candidate>, constraints: Constraints, installed: Installed, p: Attributed)
    requires forall c :: c in kept ==> RunningTwin(c, installed).None?
    requires p in Opened(w, kept, constraints)
    ensures p.filters != [] && forall id :: id in installed ==> installed[id].filters != p.filters
  {
    OpenMember(w, kept, constraints, p);
    var c :| c in kept && p == Planned(c, constraints);
    assert RunningTwin(c, installed).None?;
    TwinMeaning(c, installed);
  }

  lemma FilterRulesHold(w: Wire, kept: seq<Candidate>, constraints: Constraints, installed: Installed, plan: Plan)
    requires DistinctFilters(kept) && forall c :: c in kept ==> RunningTwin(c, installed).None?
    requires plan.open == Opened(w, kept, constraints)
    requires forall id :: id in plan.retain ==>
               id in installed && id in plan.attribution && plan.attribution[id].filters == installed[id].filters
    ensures FilterRule(installed, plan) && DistinctFilterRule(installed, plan)
  {
    OpenDistinct(w, kept, constraints);
    forall p | p in plan.open
      ensures p.filters != [] && forall id :: id in installed ==> installed[id].filters != p.filters
    {
      OpenAvoidsRunning(w, kept, constraints, installed, p);
    }
  }

  lemma RunningRuleMeaning(demand: seq<RelayDemand>, constraints: Constraints, installed: Installed, plan: Plan)
    requires forall id :: id in plan.close <==> id in installed && !Kept(demand, constraints, installed, id)
    ensures RunningRule(demand, installed, plan) <==> NoneStranded(demand, constraints, installed)
  {
  }

  lemma ResidualIsWithinLimit(constraints: Constraints, plan: Plan, count: nat)
    requires |plan.open| == Residual(constraints, |plan.retain|, count)
    ensures LimitRule(constraints, plan)
  {
  }

  lemma OpenLength(w: Wire, candidates: seq<Candidate>, constraints: Constraints)
    ensures |Opened(w, candidates, constraints)| == |candidates|
  {
    var all := PlannedAll(candidates, constraints);
    assert |multiset(SortBy(all, OpenOrder(w)))| == |multiset(all)|;
  }

  lemma PlanShape(w: Wire, relay: RelayUrl, demand: seq<RelayDemand>, constraints: Constraints,
                  installed: Installed, revision: nat, s: Stages)
    requires s.openCount <= |s.kept| && RefusedSingly(s, constraints) && s.owners.Keys <= installed.Keys
    ensures var plan := PlanFrom(w, relay, demand, constraints, installed, revision, s);
            && RelayRule(relay, plan) && BucketRule(installed, plan) && AttributionRule(plan)
            && |plan.open| == s.openCount && |plan.retain| == |s.owners|
            && (forall id :: id in plan.close <==> id in installed && id !in s.owners)
            && (forall id :: id in plan.retain ==>
                  id in installed && id in plan.attribution && plan.attribution[id].filters == installed[id].filters)
  {
    AssembledShape(relay, revision, Opened(w, s.kept[..s.openCount], constraints), constraints, installed,
                   s.owners, Shortfalls(w, s, demand, constraints));
    OpenLength(w, s.kept[..s.openCount], constraints);
  }

  lemma PlanRunning(w: Wire, demand: seq<RelayDemand>, constraints: Constraints, installed: Installed, s: Stages,
                    plan: Plan)
    requires StageSound(w, demand, constraints, installed, s)
    requires forall id :: id in plan.close <==> id in installed && id !in s.owners
    ensures RunningRule(demand, installed, plan) <==> NoneStranded(demand, constraints, installed)
  {
    forall id
      ensures id in plan.close <==> id in installed && !Kept(demand, constraints, installed, id)
    {
      OwnersAreKept(w, demand, constraints, installed, s, id);
    }
    RunningRuleMeaning(demand, constraints, installed, plan);
  }

  lemma PrefixFilterRules(w: Wire, kept: seq<Candidate>, n: nat, constraints: Constraints, installed: Installed,
                          plan: Plan)
    requires n <= |kept| && DistinctFilters(kept) && forall c :: c in kept ==> RunningTwin(c, installed).None?
    requires plan.open == Opened(w, kept[..n], constraints)
    requires forall id :: id in plan.retain ==>
               id in installed && id in plan.attribution && plan.attribution[id].filters == installed[id].filters
    ensures FilterRule(installed, plan) && DistinctFilterRule(installed, plan)
  {
    assert forall c :: c in kept[..n] ==> c in kept;
    FilterRulesHold(w, kept[..n], constraints, installed, plan);
  }

  lemma PlanConforms(w: Wire, relay: RelayUrl, demand: seq<RelayDemand>, constraints: Constraints,
                     installed: Installed, revision: nat, s: Stages)
    requires SizeGrows(w) && DistinctIds(demand) && StageSound(w, demand, constraints, installed, s)
    ensures Conforms(relay, demand, constraints, installed,
                     PlanFrom(w, relay, demand, constraints, installed, revision, s))
            <==> NoneStranded(demand, constraints, installed)
  {
    var plan := PlanFrom(w, relay, demand, constraints, installed, revision, s);
    PlanShape(w, relay, demand, constraints, installed, revision, s);
    PlanAccounts(w, relay, demand, constraints, installed, revision, s);
    PrefixFilterRules(w, s.kept, s.openCount, constraints, installed, plan);
    ResidualIsWithinLimit(constraints, plan, |s.kept|);
    PlanRunning(w, demand, constraints, installed, s, plan);
  }

  /** For every demand with distinct ids, every declaration and every baseline, the
      standard plan passes the kit exactly when no running subscription is stranded. */
  lemma StandardPlanConforms(w: Wire, relay: RelayUrl, demand: seq<RelayDemand>, constraints: Constraints,
                             installed: Installed, revision: nat)
    requires SizeGrows(w) && DistinctIds(demand)
    ensures StandardPlan(w, relay, demand, constraints, installed, revision).Ok?
    ensures Conforms(relay, demand, constraints, installed,
                     StandardPlan(w, relay, demand, constraints, installed, revision).value)
            <==> NoneStranded(demand, constraints, installed)
  {
    PlanOfStages(w, relay, demand, constraints, installed, revision);
    PlanConforms(w, relay, demand, constraints, installed, revision, Stage(w, demand, constraints, installed));
  }

  /** A relay whose declared filter limit admits every requested demand a running
      subscription serves always gets a conforming plan. */
  lemma StandardPlanConformsWithinLimits(w: Wire, relay: RelayUrl, demand: seq<RelayDemand>, constraints: Constraints,
                                         installed: Installed, revision: nat)
    requires SizeGrows(w) && DistinctIds(demand)
    requires forall id, d :: id in installed && d in demand && Serves(installed, id, d.id) ==>
                               !OverLimit(d, constraints)
    ensures StandardPlan(w, relay, demand, constraints, installed, revision).Ok?
    ensures Conforms(relay, demand, constraints, installed,
                     StandardPlan(w, relay, demand, constraints, installed, revision).value)
  {
    forall id | id in installed && installed[id].serves * Ids(demand) != {}
      ensures Kept(demand, constraints, installed, id)
    {
      var k :| k in installed[id].serves * Ids(demand);
      var d :| d in demand && d.id == k;
      assert Serves(installed, id, d.id);
    }
    StandardPlanConforms(w, relay, demand, constraints, installed, revision);
  }

  /** The proviso is needed: lowering the declared filter limit under a running
      subscription makes the planner close it while its demand is still requested. */
  lemma LoweredLimitStrandsAnOwner(w: Wire, relay: RelayUrl, revision: nat)
    requires SizeGrows(w)
    ensures var f := Filter(None, None, None, None, None, None, Some(10), map[]);
            var d := RelayDemand(DemandId(1, 0), f, QueryBounds(None, None, None));
            var constraints := Constraints(None, None, Some(5), None);
            var installed: Installed := map[7 := InstalledSubscription([f], {d.id})];
            var answer := StandardPlan(w, relay, [d], constraints, installed, revision);
            answer.Ok? && !Conforms(relay, [d], constraints, installed, answer.value)
  {
    var f := Filter(None, None, None, None, None, None, Some(10), map[]);
    var d := RelayDemand(DemandId(1, 0), f, QueryBounds(None, None, None));
    var constraints := Constraints(None, None, Some(5), None);
    var installed: Installed := map[7 := InstalledSubscription([f], {d.id})];
    assert d.id in installed[7].serves * Ids([d]);
    assert !Kept([d], constraints, installed, 7);
    StandardPlanConforms(w, relay, [d], constraints, installed, revision);
  }
}
