/** The one-subscription-per-demand reference planner, and the proof that grouping
    gives the same demand the same meaning. */
module Differential {
  import opened Prelude
  import opened Orders
  import opened Events
  import opened Filters
  import opened Demand
  import opened Grouping
  import opened Planner
  import opened PlanFacts
  import opened Conformance

  // ----- The reference planner -----

  /** The running subscription that serves this demand or carries exactly its filter. */
  function RunningHost(d: RelayDemand, installed: Installed): Option<SubscriptionId> {
    FirstId(Ascending(installed.Keys), (id: SubscriptionId) =>
      Serves(installed, id, d.id) || (id in installed && installed[id].filters == [d.filter]))
  }

  function ExactlyHosted(demand: seq<RelayDemand>, installed: Installed, id: SubscriptionId): set<DemandId> {
    set d | d in demand && RunningHost(d, installed) == Some(id) :: d.id
  }

  function ExactAttach(demand: seq<RelayDemand>, installed: Installed): Owners {
    map id | id in installed && ExactlyHosted(demand, installed, id) != {} :: ExactlyHosted(demand, installed, id)
  }

  function ExactPending(demand: seq<RelayDemand>, installed: Installed): seq<RelayDemand> {
    if demand == [] then []
    else (if RunningHost(demand[0], installed).None? then [demand[0]] else []) + ExactPending(demand[1..], installed)
  }

  function ByIdentity(): (RelayDemand, RelayDemand) -> bool {
    (a: RelayDemand, b: RelayDemand) => IdLeq(a.id, b.id)
  }

  /** Requests admitted so far, the filter lists already on the wire, and what was refused. */
  datatype Admission = Admission(carried: seq<Attributed>, onWire: seq<seq<Filter>>, short: seq<Shortfall>)

  function AddOwner(carried: seq<Attributed>, filters: seq<Filter>, id: DemandId): Option<seq<Attributed>> {
    if carried == [] then None
    else if carried[0].filters == filters then
      Some([carried[0].(serves := carried[0].serves + {id})] + carried[1..])
    else
      var rest := AddOwner(carried[1..], filters, id);
      if rest.None? then None else Some([carried[0]] + rest.value)
  }

  function AdmitOne(w: Wire, d: RelayDemand, constraints: Constraints, running: nat, required: nat,
                    a: Admission): Admission {
    if constraints.maxSubscriptions.Some? && |a.carried| + running >= constraints.maxSubscriptions.value then
      a.(short := a.short + [Shortfall(d.id, SubscriptionsExhausted(required, constraints.maxSubscriptions.value))])
    else
      var owned := AddOwner(a.carried, [d.filter], d.id);
      if owned.Some? then a.(carried := owned.value)
      else if [d.filter] in a.onWire then a
      else if !Fits(w, d.filter, constraints) then
        a.(short := a.short + [Shortfall(d.id, MessageTooLarge(w.size(d.filter), constraints.maxMessageBytes.value))])
      else
        Admission(
          a.carried + [Attributed([d.filter], {d.id}, CompletenessOf([d.filter], constraints))],
          a.onWire + [[d.filter]],
          a.short)
  }

  function AdmitAll(w: Wire, pending: seq<RelayDemand>, constraints: Constraints, running: nat, required: nat,
                    a: Admission): Admission
    decreases |pending|
  {
    if pending == [] then a
    else AdmitAll(w, pending[1..], constraints, running, required,
                  AdmitOne(w, pending[0], constraints, running, required, a))
  }

  function FiltersOnWire(installed: Installed): seq<seq<Filter>> {
    var ids := Ascending(installed.Keys);
    seq(|ids|, i requires 0 <= i < |ids| => assert ids[i] in ids; installed[ids[i]].filters)
  }

  /** Who keeps owning what runs, and what the pending demand adds. */
  function ReferenceStage(w: Wire, demand: seq<RelayDemand>, constraints: Constraints,
                          installed: Installed): (Owners, Admission) {
    var admissible := Admissible(demand, constraints);
    var pending := SortBy(ExactPending(admissible, installed), ByIdentity());
    var owners := SurvivingOwners(admissible, installed, ExactAttach(admissible, installed));
    (owners, AdmitAll(w, pending, constraints, |owners|, |owners| + |pending|,
                      Admission([], FiltersOnWire(installed), LimitShortfalls(demand, constraints))))
  }

  function OnePerDemandPlan(w: Wire, relay: RelayUrl, demand: seq<RelayDemand>, constraints: Constraints,
                            installed: Installed, revision: nat): Result<Plan, PlanError> {
    var duplicate := FirstDuplicate(demand, {});
    if duplicate.Some? then Err(DuplicateDemand(duplicate.value))
    else
      var (owners, admission) := ReferenceStage(w, demand, constraints, installed);
      Ok(Assemble(relay, revision, admission.carried, constraints, installed, owners, admission.short))
  }

  // ----- What an event reaches -----

  /** Some subscription serving this demand asks the relay for the event. */
  predicate Reaches(plan: Plan, id: DemandId, e: Event) {
    || (exists wire :: wire in plan.attribution && id in plan.attribution[wire].serves
                       && exists f :: f in plan.attribution[wire].filters && Matches(f, e))
    || (exists p :: p in plan.open && id in p.serves && exists f :: f in p.filters && Matches(f, e))
  }

  /** The demand one event reaches after local refiltering. */
  function DeliveredTo(plan: Plan, demand: seq<RelayDemand>, e: Event): set<DemandId> {
    set d | d in demand && Matches(d.filter, e) && Reaches(plan, d.id, e) :: d.id
  }

  ghost predicate CoveredBy(filters: seq<Filter>, f: Filter) {
    exists g :: g in filters && Covers(g, f)
  }

  /** Every subscription of the plan contains the filters of the demand it serves. */
  ghost predicate Covering(plan: Plan, demand: seq<RelayDemand>) {
    forall d :: d in demand ==>
      && (forall wire :: wire in plan.attribution && d.id in plan.attribution[wire].serves
                         ==> CoveredBy(plan.attribution[wire].filters, d.filter))
      && (forall p :: p in plan.open && d.id in p.serves ==> CoveredBy(p.filters, d.filter))
  }

  lemma CoveredReaches(filters: seq<Filter>, f: Filter, e: Event)
    requires CoveredBy(filters, f) && Matches(f, e)
    ensures exists g :: g in filters && Matches(g, e)
  {
    var g :| g in filters && Covers(g, f);
    CoversSound(g, f, e);
  }

  /** A plan whose subscriptions contain what they serve delivers each event to
      exactly the served demand whose own filter matches it. */
  lemma DeliveryIsExact(plan: Plan, demand: seq<RelayDemand>, e: Event)
    requires Covering(plan, demand)
    ensures DeliveredTo(plan, demand, e) == set d | d in demand && d.id in Served(plan) && Matches(d.filter, e) :: d.id
  {
    forall d | d in demand && d.id in Served(plan) && Matches(d.filter, e)
      ensures Reaches(plan, d.id, e)
    {
      if wire :| wire in plan.attribution && d.id in plan.attribution[wire].serves {
        CoveredReaches(plan.attribution[wire].filters, d.filter, e);
      } else {
        var p :| p in plan.open && d.id in p.serves;
        CoveredReaches(p.filters, d.filter, e);
      }
    }
    forall d | d in demand && Reaches(plan, d.id, e)
      ensures d.id in Served(plan)
    {
      if wire :| wire in plan.attribution && d.id in plan.attribution[wire].serves {
      } else {
        var p :| p in plan.open && d.id in p.serves;
        assert d.id in OpenIds(plan.open);
      }
    }
  }

  // ----- The standard planner on a fresh session -----

  /** The demand a fresh session without a declared subscription count can carry. */
  ghost predicate Carriable(w: Wire, d: RelayDemand, constraints: Constraints) {
    !OverLimit(d, constraints) && Fits(w, d.filter, constraints)
  }

  ghost function CarriableIds(w: Wire, demand: seq<RelayDemand>, constraints: Constraints): set<DemandId> {
    set d | d in demand && Carriable(w, d, constraints) :: d.id
  }

  lemma GroupedCovers(w: Wire, kept: seq<Candidate>, demand: seq<RelayDemand>, constraints: Constraints, d: RelayDemand,
                      p: Attributed)
    requires AllSound(w, kept) && DistinctIds(demand) && d in demand
    requires forall m :: m in Load(kept) ==> m in demand
    requires p in Opened(w, kept, constraints) && d.id in p.serves
    ensures CoveredBy(p.filters, d.filter)
  {
    OpenMember(w, kept, constraints, p);
    var c :| c in kept && p == Planned(c, constraints);
    var m :| m in c.members && m.id == d.id;
    LoadMember(kept, m);
    SameIdSameDemand(demand, m, d);
    assert Sound(w, c);
    assert c.filter in p.filters;
  }

  lemma FateSets(w: Wire, demand: seq<RelayDemand>, constraints: Constraints, kept: set<DemandId>,
                 refused: set<DemandId>)
    requires DistinctIds(demand) && kept <= Ids(demand) && refused <= Ids(demand)
    requires forall d :: d in demand ==> (d.id in kept <==> Carriable(w, d, constraints))
    requires forall d :: d in demand ==>
                           (d.id in refused <==> !OverLimit(d, constraints) && !Fits(w, d.filter, constraints))
    ensures kept == CarriableIds(w, demand, constraints)
    ensures LimitedIds(demand, constraints) + refused == Ids(demand) - kept
  {
    forall d | d in demand
      ensures d.id in LimitedIds(demand, constraints) <==> OverLimit(d, constraints)
    {
      if d.id in LimitedIds(demand, constraints) {
        var d' :| d' in demand && OverLimit(d', constraints) && d'.id == d.id;
        SameIdSameDemand(demand, d, d');
      }
    }
  }

  lemma FreshFate(w: Wire, demand: seq<RelayDemand>, constraints: Constraints, d: RelayDemand)
    requires SizeGrows(w) && DistinctIds(demand) && d in demand
    ensures var s := Stage(w, demand, constraints, map[]);
            && (d.id in CarriedIds(s.kept) <==> Carriable(w, d, constraints))
            && (d.id in CarriedIds(s.fitted.refused) <==> !OverLimit(d, constraints) && !Fits(w, d.filter, constraints))
  {
    HostForMeaning(d, map[]);
    DemandFate(w, demand, constraints, map[], d);
  }

  lemma StandardOnFreshSession(w: Wire, relay: RelayUrl, demand: seq<RelayDemand>, constraints: Constraints,
                               revision: nat)
    requires SizeGrows(w) && DistinctIds(demand) && constraints.maxSubscriptions.None?
    ensures StandardPlan(w, relay, demand, constraints, map[], revision).Ok?
    ensures var plan := StandardPlan(w, relay, demand, constraints, map[], revision).value;
            && Served(plan) == CarriableIds(w, demand, constraints)
            && ShortIds(plan.shortfalls) == Ids(demand) - CarriableIds(w, demand, constraints)
            && Covering(plan, demand)
  {
    var s := Stage(w, demand, constraints, map[]);
    PlanOfStages(w, relay, demand, constraints, map[], revision);
    CarriedRequested(w, demand, constraints, map[], s);
    forall d | d in demand
      ensures d.id in CarriedIds(s.kept) <==> Carriable(w, d, constraints)
      ensures d.id in CarriedIds(s.fitted.refused) <==> !OverLimit(d, constraints) && !Fits(w, d.filter, constraints)
    {
      FreshFate(w, demand, constraints, d);
    }
    FateSets(w, demand, constraints, CarriedIds(s.kept), CarriedIds(s.fitted.refused));
    FreshPlan(w, relay, demand, constraints, revision, s);
  }

  lemma FreshPlan(w: Wire, relay: RelayUrl, demand: seq<RelayDemand>, constraints: Constraints, revision: nat,
                  s: Stages)
    requires DistinctIds(demand) && constraints.maxSubscriptions.None? && StageSound(w, demand, constraints, map[], s)
    ensures var plan := PlanFrom(w, relay, demand, constraints, map[], revision, s);
            && plan.attribution == map[] && plan.open == Opened(w, s.kept, constraints)
            && Served(plan) == CarriedIds(s.kept)
            && ShortIds(plan.shortfalls) == LimitedIds(demand, constraints) + CarriedIds(s.fitted.refused)
            && Covering(plan, demand)
  {
    FreshShape(w, relay, demand, constraints, revision, s);
    OpenIdsMeaning(w, s.kept, constraints);
    forall d, p | d in demand && p in Opened(w, s.kept, constraints) && d.id in p.serves
      ensures CoveredBy(p.filters, d.filter)
    {
      KeptRequested(w, demand, constraints, map[], s);
      GroupedCovers(w, s.kept, demand, constraints, d, p);
    }
  }

  lemma FreshShape(w: Wire, relay: RelayUrl, demand: seq<RelayDemand>, constraints: Constraints, revision: nat,
                   s: Stages)
    requires RefusedSingly(s, constraints) && constraints.maxSubscriptions.None? && s.openCount == |s.kept|
    ensures var plan := PlanFrom(w, relay, demand, constraints, map[], revision, s);
            && plan.attribution == map[] && plan.open == Opened(w, s.kept, constraints)
            && ShortIds(plan.shortfalls) == LimitedIds(demand, constraints) + CarriedIds(s.fitted.refused)
  {
    assert s.kept[..s.openCount] == s.kept && s.kept[s.openCount..] == [];
    assert CarriedIds([]) == {};
    ShortfallsMeaning(w, s, demand, constraints);
  }

  lemma KeptRequested(w: Wire, demand: seq<RelayDemand>, constraints: Constraints, installed: Installed, s: Stages)
    requires StageSound(w, demand, constraints, installed, s)
    ensures forall m :: m in Load(s.kept) ==> m in demand && !OverLimit(m, constraints) && HostFor(m, installed).None?
  {
    forall m | m in Load(s.kept)
      ensures m in demand && !OverLimit(m, constraints) && HostFor(m, installed).None?
    {
      assert m in multiset(s.pending);
      PendingMember(s.admissible, installed, m);
      AdmissibleMember(demand, constraints, m);
    }
  }

  // ----- The reference planner on a fresh session -----

  function FilterLists(carried: seq<Attributed>): set<seq<Filter>> {
    set p | p in carried :: p.filters
  }

  /** One carried request is one filter that fits, serving only demand that asked for exactly it. */
  ghost predicate ExactRequest(w: Wire, done: seq<RelayDemand>, constraints: Constraints, p: Attributed) {
    && |p.filters| == 1 && Fits(w, p.filters[0], constraints)
    && forall id :: id in p.serves ==> exists d :: d in done && d.id == id && d.filter == p.filters[0]
  }

  ghost function FittingIds(w: Wire, done: seq<RelayDemand>, constraints: Constraints): set<DemandId> {
    set d | d in done && Fits(w, d.filter, constraints) :: d.id
  }

  ghost function OutsizedIds(w: Wire, done: seq<RelayDemand>, constraints: Constraints): set<DemandId> {
    set d | d in done && !Fits(w, d.filter, constraints) :: d.id
  }

  ghost predicate AdmissionInv(w: Wire, done: seq<RelayDemand>, constraints: Constraints, limited: set<DemandId>,
                               a: Admission) {
    && (forall p :: p in a.carried ==> ExactRequest(w, done, constraints, p))
    && Elements(a.onWire) == FilterLists(a.carried)
    && OpenIds(a.carried) == FittingIds(w, done, constraints)
    && ShortIds(a.short) == limited + OutsizedIds(w, done, constraints)
  }

  lemma SizedIdsAppend(w: Wire, done: seq<RelayDemand>, d: RelayDemand, constraints: Constraints)
    ensures FittingIds(w, done + [d], constraints)
            == FittingIds(w, done, constraints) + (if Fits(w, d.filter, constraints) then {d.id} else {})
    ensures OutsizedIds(w, done + [d], constraints)
            == OutsizedIds(w, done, constraints) + (if Fits(w, d.filter, constraints) then {} else {d.id})
  {
    assert d in done + [d];
    assert forall m :: m in done ==> m in done + [d];
  }

  lemma AddOwnerMeaning(carried: seq<Attributed>, filters: seq<Filter>, id: DemandId)
    ensures AddOwner(carried, filters, id).None? <==> forall p :: p in carried ==> p.filters != filters
    ensures AddOwner(carried, filters, id).Some? ==>
              var after := AddOwner(carried, filters, id).value;
              && |after| == |carried|
              && OpenIds(after) == OpenIds(carried) + {id}
              && (forall i :: 0 <= i < |after| ==> after[i].filters == carried[i].filters)
              && (forall i :: 0 <= i < |after| ==>
                    || after[i] == carried[i]
                    || (carried[i].filters == filters && after[i] == carried[i].(serves := carried[i].serves + {id})))
  {
    AddOwnerShape(carried, filters, id);
    AddOwnerIds(carried, filters, id);
  }

  lemma {:induction false} AddOwnerShape(carried: seq<Attributed>, filters: seq<Filter>, id: DemandId)
    ensures AddOwner(carried, filters, id).None? <==> forall p :: p in carried ==> p.filters != filters
    ensures AddOwner(carried, filters, id).Some? ==>
              var after := AddOwner(carried, filters, id).value;
              && |after| == |carried|
              && (forall i :: 0 <= i < |after| ==> after[i].filters == carried[i].filters)
              && (forall i :: 0 <= i < |after| ==>
                    || after[i] == carried[i]
                    || (carried[i].filters == filters && after[i] == carried[i].(serves := carried[i].serves + {id})))
  {
    if carried != [] {
      AddOwnerShape(carried[1..], filters, id);
    }
  }

  lemma {:induction false} AddOwnerIds(carried: seq<Attributed>, filters: seq<Filter>, id: DemandId)
    ensures AddOwner(carried, filters, id).Some? ==>
              OpenIds(AddOwner(carried, filters, id).value) == OpenIds(carried) + {id}
  {
    var r := AddOwner(carried, filters, id);
    if r.Some? {
      OpenIdsHead(carried);
      OpenIdsHead(r.value);
      if carried[0].filters == filters {
        assert r.value[1..] == carried[1..];
      } else {
        AddOwnerIds(carried[1..], filters, id);
        assert r.value[1..] == AddOwner(carried[1..], filters, id).value;
      }
    }
  }

  lemma OpenIdsHead(open: seq<Attributed>)
    requires open != []
    ensures OpenIds(open) == open[0].serves + OpenIds(open[1..])
  {
    forall id | id in OpenIds(open)
      ensures id in open[0].serves + OpenIds(open[1..])
    {
      var p :| p in open && id in p.serves;
      assert p == open[0] || p in open[1..];
    }
  }

  lemma OpenIdsAppend(a: seq<Attributed>, b: seq<Attributed>)
    ensures OpenIds(a + b) == OpenIds(a) + OpenIds(b)
  {
    forall id | id in OpenIds(a) + OpenIds(b)
      ensures id in OpenIds(a + b)
    {
      if id in OpenIds(a) {
        var p :| p in a && id in p.serves;
        assert p in a + b;
      } else {
        var p :| p in b && id in p.serves;
        assert p in a + b;
      }
    }
  }

  lemma ExactRequestGrows(w: Wire, done: seq<RelayDemand>, d: RelayDemand, constraints: Constraints, p: Attributed)
    requires ExactRequest(w, done, constraints, p)
    ensures ExactRequest(w, done + [d], constraints, p)
  {
    forall id | id in p.serves
      ensures exists m :: m in done + [d] && m.id == id && m.filter == p.filters[0]
    {
      var m :| m in done && m.id == id && m.filter == p.filters[0];
      assert m in done + [d];
    }
  }

  lemma SameFilterLists(a: seq<Attributed>, b: seq<Attributed>)
    requires |a| == |b| && forall i :: 0 <= i < |a| ==> a[i].filters == b[i].filters
    ensures FilterLists(a) == FilterLists(b)
  {
    forall i | 0 <= i < |a|
      ensures a[i].filters in FilterLists(b) && b[i].filters in FilterLists(a)
    {
      assert a[i] in a && b[i] in b;
    }
  }

  lemma OwnedRequest(w: Wire, done: seq<RelayDemand>, d: RelayDemand, constraints: Constraints, before: Attributed,
                     after: Attributed)
    requires ExactRequest(w, done, constraints, before)
    requires after == before || (before.filters == [d.filter] && after == before.(serves := before.serves + {d.id}))
    ensures ExactRequest(w, done + [d], constraints, after)
  {
    ExactRequestGrows(w, done, d, constraints, before);
    assert d in done + [d];
  }

  /** Joining an identical request: it fits, and it was asked for exactly. */
  lemma AdmitOwned(w: Wire, done: seq<RelayDemand>, d: RelayDemand, constraints: Constraints, limited: set<DemandId>,
                   a: Admission)
    requires AdmissionInv(w, done, constraints, limited, a)
    requires AddOwner(a.carried, [d.filter], d.id).Some?
    ensures AdmissionInv(w, done + [d], constraints, limited,
                         a.(carried := AddOwner(a.carried, [d.filter], d.id).value))
  {
    AddOwnerMeaning(a.carried, [d.filter], d.id);
    var after := AddOwner(a.carried, [d.filter], d.id).value;
    forall p | p in after
      ensures ExactRequest(w, done + [d], constraints, p)
    {
      var i :| 0 <= i < |after| && after[i] == p;
      OwnedRequest(w, done, d, constraints, a.carried[i], p);
    }
    SameFilterLists(a.carried, after);
    SizedIdsAppend(w, done, d, constraints);
    assert Fits(w, d.filter, constraints) by {
      var twin :| twin in a.carried && twin.filters == [d.filter];
      assert ExactRequest(w, done, constraints, twin);
    }
  }

  lemma AdmitFresh(w: Wire, done: seq<RelayDemand>, d: RelayDemand, constraints: Constraints, limited: set<DemandId>,
                   a: Admission, p: Attributed)
    requires AdmissionInv(w, done, constraints, limited, a) && Fits(w, d.filter, constraints)
    requires p.filters == [d.filter] && p.serves == {d.id}
    ensures AdmissionInv(w, done + [d], constraints, limited,
                         Admission(a.carried + [p], a.onWire + [[d.filter]], a.short))
  {
    OpenIdsAppend(a.carried, [p]);
    OpenIdsHead([p]);
    assert OpenIds([]) == {};
    SizedIdsAppend(w, done, d, constraints);
    forall q | q in a.carried + [p]
      ensures ExactRequest(w, done + [d], constraints, q)
    {
      if q in a.carried {
        ExactRequestGrows(w, done, d, constraints, q);
      } else {
        assert d in done + [d];
      }
    }
    assert FilterLists(a.carried + [p]) == FilterLists(a.carried) + {[d.filter]} by {
      assert p in a.carried + [p];
      assert forall q :: q in a.carried ==> q in a.carried + [p];
    }
    assert Elements(a.onWire + [[d.filter]]) == Elements(a.onWire) + {[d.filter]};
  }

  lemma AdmitOutsized(w: Wire, done: seq<RelayDemand>, d: RelayDemand, constraints: Constraints, limited: set<DemandId>,
                      a: Admission, reason: ShortfallReason)
    requires AdmissionInv(w, done, constraints, limited, a) && !Fits(w, d.filter, constraints)
    ensures AdmissionInv(w, done + [d], constraints, limited, a.(short := a.short + [Shortfall(d.id, reason)]))
  {
    forall p | p in a.carried
      ensures ExactRequest(w, done + [d], constraints, p)
    {
      ExactRequestGrows(w, done, d, constraints, p);
    }
    ShortIdsAppend(a.short, [Shortfall(d.id, reason)]);
    assert ShortIds([Shortfall(d.id, reason)]) == {d.id};
    SizedIdsAppend(w, done, d, constraints);
  }

  lemma AdmitOneKeeps(w: Wire, done: seq<RelayDemand>, d: RelayDemand, constraints: Constraints, limited: set<DemandId>,
                      running: nat, required: nat, a: Admission)
    requires AdmissionInv(w, done, constraints, limited, a) && constraints.maxSubscriptions.None?
    ensures AdmissionInv(w, done + [d], constraints, limited, AdmitOne(w, d, constraints, running, required, a))
  {
    AddOwnerMeaning(a.carried, [d.filter], d.id);
    if AddOwner(a.carried, [d.filter], d.id).Some? {
      AdmitOwned(w, done, d, constraints, limited, a);
    } else {
      assert [d.filter] !in a.onWire by {
        assert [d.filter] !in FilterLists(a.carried);
        assert [d.filter] !in Elements(a.onWire);
      }
      if Fits(w, d.filter, constraints) {
        AdmitFresh(w, done, d, constraints, limited, a,
                   Attributed([d.filter], {d.id}, CompletenessOf([d.filter], constraints)));
      } else {
        AdmitOutsized(w, done, d, constraints, limited, a,
                      MessageTooLarge(w.size(d.filter), constraints.maxMessageBytes.value));
      }
    }
  }

  lemma {:induction false} AdmitAllKeeps(w: Wire, done: seq<RelayDemand>, pending: seq<RelayDemand>,
                                         constraints: Constraints,
                                         limited: set<DemandId>, running: nat, required: nat, a: Admission)
    requires AdmissionInv(w, done, constraints, limited, a) && constraints.maxSubscriptions.None?
    ensures AdmissionInv(w, done + pending, constraints, limited,
                         AdmitAll(w, pending, constraints, running, required, a))
    decreases |pending|
  {
    if pending == [] {
      assert done + pending == done;
    } else {
      var d := pending[0];
      AdmitOneKeeps(w, done, d, constraints, limited, running, required, a);
      assert done + pending == (done + [d]) + pending[1..];
      AdmitAllKeeps(w, done + [d], pending[1..], constraints, limited, running, required,
                    AdmitOne(w, d, constraints, running, required, a));
    }
  }

  lemma {:induction false} NothingRunning(demand: seq<RelayDemand>)
    ensures ExactPending(demand, map[]) == demand
  {
    if demand != [] {
      NothingRunning(demand[1..]);
      assert RunningHost(demand[0], map[]).None?;
    }
  }

  lemma SizedIdsMeaning(w: Wire, demand: seq<RelayDemand>, pending: seq<RelayDemand>, constraints: Constraints)
    requires DistinctIds(demand)
    requires forall d :: d in pending <==> d in demand && !OverLimit(d, constraints)
    ensures FittingIds(w, pending, constraints) == CarriableIds(w, demand, constraints)
    ensures LimitedIds(demand, constraints) + OutsizedIds(w, pending, constraints)
            == Ids(demand) - CarriableIds(w, demand, constraints)
  {
    forall d | d in demand
      ensures d.id in FittingIds(w, pending, constraints) <==> Carriable(w, d, constraints)
      ensures d.id in OutsizedIds(w, pending, constraints)
              <==> !OverLimit(d, constraints) && !Fits(w, d.filter, constraints)
    {
      if d.id in FittingIds(w, pending, constraints) {
        var m :| m in pending && Fits(w, m.filter, constraints) && m.id == d.id;
        SameIdSameDemand(demand, m, d);
      }
      if d.id in OutsizedIds(w, pending, constraints) {
        var m :| m in pending && !Fits(w, m.filter, constraints) && m.id == d.id;
        SameIdSameDemand(demand, m, d);
      }
    }
    FateSets(w, demand, constraints, FittingIds(w, pending, constraints), OutsizedIds(w, pending, constraints));
  }

  lemma RequestCovers(w: Wire, demand: seq<RelayDemand>, pending: seq<RelayDemand>, constraints: Constraints,
                      d: RelayDemand, p: Attributed)
    requires DistinctIds(demand) && d in demand && d.id in p.serves
    requires forall m :: m in pending ==> m in demand
    requires ExactRequest(w, pending, constraints, p)
    ensures CoveredBy(p.filters, d.filter)
  {
    var m :| m in pending && m.id == d.id && m.filter == p.filters[0];
    SameIdSameDemand(demand, m, d);
    assert d.filter in p.filters && Covers(d.filter, d.filter);
  }

  ghost function Reference(w: Wire, demand: seq<RelayDemand>, constraints: Constraints): Admission {
    var pending := SortBy(Admissible(demand, constraints), ByIdentity());
    AdmitAll(w, pending, constraints, 0, |pending|, Admission([], [], LimitShortfalls(demand, constraints)))
  }

  lemma ReferenceAdmission(w: Wire, demand: seq<RelayDemand>, constraints: Constraints)
    requires DistinctIds(demand) && constraints.maxSubscriptions.None?
    ensures var a := Reference(w, demand, constraints);
            && OpenIds(a.carried) == CarriableIds(w, demand, constraints)
            && ShortIds(a.short) == Ids(demand) - CarriableIds(w, demand, constraints)
            && (forall d, p :: d in demand && p in a.carried && d.id in p.serves ==> CoveredBy(p.filters, d.filter))
  {
    var admissible := Admissible(demand, constraints);
    var pending := SortBy(admissible, ByIdentity());
    var start := Admission([], [], LimitShortfalls(demand, constraints));
    LimitIds(demand, constraints);
    AdmitAllKeeps(w, [], pending, constraints, LimitedIds(demand, constraints), 0, |pending|, start);
    assert [] + pending == pending;
    forall d
      ensures d in pending <==> d in demand && !OverLimit(d, constraints)
    {
      MultisetMember(admissible, pending, d);
      AdmissibleMember(demand, constraints, d);
    }
    SizedIdsMeaning(w, demand, pending, constraints);
    var a := Reference(w, demand, constraints);
    forall d, p | d in demand && p in a.carried && d.id in p.serves
      ensures CoveredBy(p.filters, d.filter)
    {
      RequestCovers(w, demand, pending, constraints, d, p);
    }
  }

  lemma ReferencePlan(w: Wire, relay: RelayUrl, demand: seq<RelayDemand>, constraints: Constraints, revision: nat)
    requires DistinctIds(demand)
    ensures var a := Reference(w, demand, constraints);
            OnePerDemandPlan(w, relay, demand, constraints, map[], revision)
            == Ok(Plan(relay, revision, a.carried, [], [], map[], a.short))
  {
    assert FirstDuplicate(demand, {}).None? by {
      FirstDuplicateMeaning(demand, {});
    }
    FreshStage(w, demand, constraints);
    var a := Reference(w, demand, constraints);
    EmptyAssembly(relay, revision, a.carried, constraints, a.short);
  }

  lemma FreshStage(w: Wire, demand: seq<RelayDemand>, constraints: Constraints)
    ensures ReferenceStage(w, demand, constraints, map[]) == (map[], Reference(w, demand, constraints))
  {
    NothingRunning(Admissible(demand, constraints));
    NobodyOwns(Admissible(demand, constraints));
  }

  lemma NobodyOwns(demand: seq<RelayDemand>)
    ensures SurvivingOwners(demand, map[], ExactAttach(demand, map[])) == map[]
    ensures FiltersOnWire(map[]) == []
  {
    var none: Installed := map[];
    assert none.Keys == {};
    assert Ascending({}) == [];
  }

  lemma EmptyAssembly(relay: RelayUrl, revision: nat, open: seq<Attributed>, constraints: Constraints,
                      short: seq<Shortfall>)
    ensures Assemble(relay, revision, open, constraints, map[], map[], short)
            == Plan(relay, revision, open, [], [], map[], short)
  {
    var none: Installed := map[];
    var nobody: Owners := map[];
    assert nobody.Keys * none.Keys == {} && none.Keys - nobody.Keys == {};
    assert Ascending({}) == [];
  }

  lemma ReferenceOnFreshSession(w: Wire, relay: RelayUrl, demand: seq<RelayDemand>, constraints: Constraints,
                                revision: nat)
    requires DistinctIds(demand) && constraints.maxSubscriptions.None?
    ensures OnePerDemandPlan(w, relay, demand, constraints, map[], revision).Ok?
    ensures var plan := OnePerDemandPlan(w, relay, demand, constraints, map[], revision).value;
            && Served(plan) == CarriableIds(w, demand, constraints)
            && ShortIds(plan.shortfalls) == Ids(demand) - CarriableIds(w, demand, constraints)
            && Covering(plan, demand)
  {
    ReferencePlan(w, relay, demand, constraints, revision);
    ReferenceAdmission(w, demand, constraints);
  }

  /** Grouping preserves meaning, for every demand set and every event: on a fresh
      session with no declared subscription count the grouping planner and the
      reference planner report the same shortfalls, settle the same demand and deliver each
      event to exactly the carried demand whose own filter matches it. */
  lemma GroupingPreservesMeaning(w: Wire, relay: RelayUrl, demand: seq<RelayDemand>, constraints: Constraints,
                                 revision: nat, e: Event)
    requires SizeGrows(w) && DistinctIds(demand) && constraints.maxSubscriptions.None?
    ensures StandardPlan(w, relay, demand, constraints, map[], revision).Ok?
    ensures OnePerDemandPlan(w, relay, demand, constraints, map[], revision).Ok?
    ensures var grouped := StandardPlan(w, relay, demand, constraints, map[], revision).value;
            var ungrouped := OnePerDemandPlan(w, relay, demand, constraints, map[], revision).value;
            && ShortIds(grouped.shortfalls) == ShortIds(ungrouped.shortfalls)
            && Served(grouped) == Served(ungrouped) == Ids(demand) - ShortIds(grouped.shortfalls)
            && DeliveredTo(grouped, demand, e) == DeliveredTo(ungrouped, demand, e)
               == set d | d in demand && d.id !in ShortIds(grouped.shortfalls) && Matches(d.filter, e) :: d.id
  {
    StandardOnFreshSession(w, relay, demand, constraints, revision);
    ReferenceOnFreshSession(w, relay, demand, constraints, revision);
    SameMeaning(StandardPlan(w, relay, demand, constraints, map[], revision).value,
                OnePerDemandPlan(w, relay, demand, constraints, map[], revision).value,
                demand, CarriableIds(w, demand, constraints), e);
  }

  lemma SameMeaning(a: Plan, b: Plan, demand: seq<RelayDemand>, carried: set<DemandId>, e: Event)
    requires Served(a) == Served(b) == carried && carried <= Ids(demand)
    requires ShortIds(a.shortfalls) == ShortIds(b.shortfalls) == Ids(demand) - carried
    requires Covering(a, demand) && Covering(b, demand)
    ensures Served(a) == Ids(demand) - ShortIds(a.shortfalls)
    ensures DeliveredTo(a, demand, e) == DeliveredTo(b, demand, e)
            == set d | d in demand && d.id !in ShortIds(a.shortfalls) && Matches(d.filter, e) :: d.id
  {
    DeliveryIsExact(a, demand, e);
    DeliveryIsExact(b, demand, e);
  }
}
