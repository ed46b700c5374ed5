/** One relay session: the running baseline under attaches and executed plans, and
    what every run of it keeps. */
module Session {
  import opened Prelude
  import opened Events
  import opened Filters
  import opened Demand
  import opened Grouping
  import opened Planner
  import opened PlanFacts
  import opened Conformance
  import opened Differential

  // ----- The two edits of the baseline -----

  /** Binds one demand to the running subscription that already carries it. */
  function AttachOne(installed: Installed, d: RelayDemand): Installed {
    var host := HostFor(d, installed);
    HostForMeaning(d, installed);
    if host.None? then installed
    else installed[host.value := installed[host.value].(serves := installed[host.value].serves + {d.id})]
  }

  function AttachOwners(installed: Installed, demand: seq<RelayDemand>): Installed
    decreases |demand|
  {
    if demand == [] then installed else AttachOwners(AttachOne(installed, demand[0]), demand[1..])
  }

  /** The entries the session named; a position without a name was refused. */
  function Named(open: seq<Attributed>, minted: seq<Option<SubscriptionId>>): Installed {
    if open == [] || minted == [] then map[]
    else
      (if minted[0].Some? then map[minted[0].value := InstalledSubscription(open[0].filters, open[0].serves)]
       else map[])
      + Named(open[1..], minted[1..])
  }

  /** What the session holds once a plan has been executed. */
  function Accepted(baseline: Installed, plan: Plan, minted: seq<Option<SubscriptionId>>,
                    closed: set<SubscriptionId>): Installed {
    (map id | id in baseline && id !in closed && id in plan.attribution ::
       InstalledSubscription(baseline[id].filters, plan.attribution[id].serves))
    + Named(plan.open, minted)
  }

  // ----- The reference reducer -----

  /** The conformance kit's own next baseline: it believes the filters the plan attributes. */
  function ApplyPlan(baseline: Installed, plan: Plan, minted: seq<Option<SubscriptionId>>): Installed {
    (map id | id in baseline && id !in plan.close && id in plan.attribution ::
       InstalledSubscription(plan.attribution[id].filters, plan.attribution[id].serves))
    + Named(plan.open, minted)
  }

  ghost predicate KeepsFilters(baseline: Installed, plan: Plan) {
    forall id :: id in baseline && id !in plan.close && id in plan.attribution
                 ==> plan.attribution[id].filters == baseline[id].filters
  }

  /** Once the plan's closes are done, what the session records is what the reference reducer
      says, whichever opens were refused, if and only if the plan keeps running filters. */
  lemma AcceptedIsReference(baseline: Installed, plan: Plan, minted: seq<Option<SubscriptionId>>)
    requires MintedIds(minted) !! baseline.Keys
    ensures Accepted(baseline, plan, minted, Elements(plan.close)) == ApplyPlan(baseline, plan, minted)
            <==> KeepsFilters(baseline, plan)
  {
    var accepted, applied := Accepted(baseline, plan, minted, Elements(plan.close)), ApplyPlan(baseline, plan, minted);
    NamedKeys(plan.open, minted);
    assert accepted.Keys == applied.Keys;
    if !KeepsFilters(baseline, plan) {
      var id :| id in baseline && id !in plan.close && id in plan.attribution
                && plan.attribution[id].filters != baseline[id].filters;
      assert accepted[id] != applied[id];
    }
  }

  /** A conforming plan is recorded as the reference reducer says, fresh names or not. */
  lemma ConformingIsReference(relay: RelayUrl, demand: seq<RelayDemand>, constraints: Constraints, baseline: Installed,
                              plan: Plan, minted: seq<Option<SubscriptionId>>)
    requires Conforms(relay, demand, constraints, baseline, plan)
    ensures KeepsFilters(baseline, plan)
    ensures Accepted(baseline, plan, minted, Elements(plan.close)) == ApplyPlan(baseline, plan, minted)
  {
    forall id | id in baseline && id !in plan.close && id in plan.attribution
      ensures plan.attribution[id].filters == baseline[id].filters
    {
      assert id in Elements(plan.retain);
    }
  }

  // ----- Runs -----

  datatype State = State(demand: seq<RelayDemand>, installed: Installed, used: set<SubscriptionId>)

  datatype Step =
    | ChangeDemand(demand: seq<RelayDemand>)
    | AttachDemand
    | Execute(constraints: Constraints, minted: seq<Option<SubscriptionId>>)

  function MintedIds(minted: seq<Option<SubscriptionId>>): set<SubscriptionId> {
    set m | m in minted && m.Some? :: m.value
  }

  /** The session names each accepted request with an id it never used before. */
  ghost predicate FreshlyMinted(minted: seq<Option<SubscriptionId>>, used: set<SubscriptionId>) {
    && (forall i, j :: 0 <= i < j < |minted| && minted[i].Some? ==> minted[i] != minted[j])
    && MintedIds(minted) !! used
  }

  /** Demand ids keep their filter: `asked` is what each identity asks for. */
  ghost predicate Asks(asked: DemandId -> Filter, demand: seq<RelayDemand>) {
    DistinctIds(demand) && forall d :: d in demand ==> d.filter == asked(d.id)
  }

  ghost predicate Next(w: Wire, relay: RelayUrl, asked: DemandId -> Filter, limit: Option<Positive>, s: State,
                       step: Step, s': State)
    requires SizeGrows(w)
  {
    match step
    case ChangeDemand(demand) => Asks(asked, demand) && s' == s.(demand := demand)
    case AttachDemand => s' == s.(installed := AttachOwners(s.installed, s.demand))
    case Execute(constraints, minted) =>
      var answer := StandardPlan(w, relay, s.demand, constraints, s.installed, 0);
      && answer.Ok? && constraints.maxFilterLimit == limit
      && FreshlyMinted(minted, s.used)
      && s' == State(s.demand, Accepted(s.installed, answer.value, minted, Elements(answer.value.close)),
                     s.used + MintedIds(minted))
  }

  ghost predicate Initial(asked: DemandId -> Filter, s: State) {
    Asks(asked, s.demand) && s.installed == map[] && s.used == {}
  }

  ghost predicate WithinDeclared(limit: Option<Positive>, f: Filter) {
    limit.Some? && f.limit.Some? ==> f.limit.value <= limit.value
  }

  /** A baseline whose every subscription contains what it serves, and where no
      demand is served twice. */
  ghost predicate Faithful(asked: DemandId -> Filter, limit: Option<Positive>, installed: Installed) {
    && (forall id, d :: id in installed && d in installed[id].serves ==> CoveredBy(installed[id].filters, asked(d)))
    && (forall id, f :: id in installed && f in installed[id].filters ==> WithinDeclared(limit, f))
    && (forall i, j :: i in installed && j in installed && i != j ==> installed[i].serves !! installed[j].serves)
  }

  ghost predicate Inv(asked: DemandId -> Filter, limit: Option<Positive>, s: State) {
    && Asks(asked, s.demand)
    && Faithful(asked, limit, s.installed)
    && s.installed.Keys <= s.used
  }

  /** Nothing running is rewritten; nothing still wanted goes away; no served demand loses its subscription. */
  ghost predicate Undisturbed(s: State, s': State) {
    && (forall id :: id in s.installed && id in s'.installed ==> s'.installed[id].filters == s.installed[id].filters)
    && (forall id :: id in s.installed && id !in s'.installed ==> s.installed[id].serves * Ids(s.demand) == {})
    && (forall id, d :: id in s.installed && d in s.installed[id].serves && d in Ids(s.demand)
                        ==> id in s'.installed && d in s'.installed[id].serves)
    && (forall id :: id in s'.installed && id !in s.installed ==> id !in s.used)
    && s.used <= s'.used
  }

  // ----- Attaching -----

  lemma AttachOneKeeps(asked: DemandId -> Filter, limit: Option<Positive>, installed: Installed, d: RelayDemand)
    requires Faithful(asked, limit, installed) && d.filter == asked(d.id)
    ensures var after := AttachOne(installed, d);
            && Faithful(asked, limit, after) && after.Keys == installed.Keys
            && forall id :: id in installed ==>
                 after[id].filters == installed[id].filters && installed[id].serves <= after[id].serves
  {
    var host := HostFor(d, installed);
    HostForMeaning(d, installed);
    if host.Some? {
      var h := host.value;
      assert Serves(installed, h, d.id) || Contains(installed, h, d.filter);
      assert CoveredBy(installed[h].filters, asked(d.id));
      assert forall id :: id in installed && id != h ==> !Serves(installed, id, d.id) by {
        assert !Serves(installed, h, d.id) ==> forall id :: id in installed ==> !Serves(installed, id, d.id);
      }
      JoinerKeeps(asked, limit, installed, h, d.id);
    }
  }

  lemma JoinerKeeps(asked: DemandId -> Filter, limit: Option<Positive>, installed: Installed, h: SubscriptionId,
                    d: DemandId)
    requires Faithful(asked, limit, installed) && h in installed && CoveredBy(installed[h].filters, asked(d))
    requires forall id :: id in installed && id != h ==> !Serves(installed, id, d)
    ensures Faithful(asked, limit, installed[h := installed[h].(serves := installed[h].serves + {d})])
  {
    var after := installed[h := installed[h].(serves := installed[h].serves + {d})];
    forall i, j | i in after && j in after && i != j
      ensures after[i].serves !! after[j].serves
    {
      assert installed[i].serves !! installed[j].serves;
      assert i != h ==> !Serves(installed, i, d);
      assert j != h ==> !Serves(installed, j, d);
    }
  }

  lemma {:induction false} AttachOwnersKeeps(asked: DemandId -> Filter, limit: Option<Positive>, installed: Installed,
                                             demand: seq<RelayDemand>)
    requires Faithful(asked, limit, installed) && forall d :: d in demand ==> d.filter == asked(d.id)
    ensures var after := AttachOwners(installed, demand);
            && Faithful(asked, limit, after) && after.Keys == installed.Keys
            && forall id :: id in installed ==>
                 after[id].filters == installed[id].filters && installed[id].serves <= after[id].serves
    decreases |demand|
  {
    if demand != [] {
      AttachOneKeeps(asked, limit, installed, demand[0]);
      AttachOwnersKeeps(asked, limit, AttachOne(installed, demand[0]), demand[1..]);
    }
  }

  // ----- Executing a plan -----

  lemma {:induction false} NamedMeaning(open: seq<Attributed>, minted: seq<Option<SubscriptionId>>)
    ensures forall id :: id in Named(open, minted) ==>
              exists i :: 0 <= i < |open| && i < |minted| && minted[i] == Some(id)
                          && Named(open, minted)[id] == InstalledSubscription(open[i].filters, open[i].serves)
  {
    if open != [] && minted != [] {
      NamedMeaning(open[1..], minted[1..]);
      var tail := Named(open[1..], minted[1..]);
      forall id | id in Named(open, minted)
        ensures exists i :: 0 <= i < |open| && i < |minted| && minted[i] == Some(id)
                            && Named(open, minted)[id] == InstalledSubscription(open[i].filters, open[i].serves)
      {
        if id in tail {
          var k :| 0 <= k < |open[1..]| && k < |minted[1..]| && minted[1..][k] == Some(id)
                   && tail[id] == InstalledSubscription(open[1..][k].filters, open[1..][k].serves);
          assert minted[k + 1] == Some(id) && open[k + 1] == open[1..][k];
        } else {
          assert minted[0] == Some(id);
        }
      }
    }
  }

  lemma LoadTwice(candidates: seq<Candidate>, k: nat, l: nat, m: RelayDemand)
    requires k < l < |candidates| && m in candidates[k].members && m in candidates[l].members
    ensures Load(candidates)[m] >= 2
  {
    LoadTaken(candidates, l);
    var rest := candidates[..l] + candidates[l + 1..];
    LoadTaken(rest, k);
    assert rest[k] == candidates[k];
    assert m in multiset(candidates[k].members) && m in multiset(candidates[l].members);
  }

  lemma CandidatesDisjoint(candidates: seq<Candidate>, demand: seq<RelayDemand>, c: Candidate, d: Candidate,
                           id: DemandId)
    requires Load(candidates) <= multiset(demand) && DistinctIds(demand)
    requires c in candidates && d in candidates && c != d
    requires id in Ids(c.members)
    ensures id !in Ids(d.members)
  {
    if id in Ids(d.members) {
      var m :| m in c.members && m.id == id;
      var n :| n in d.members && n.id == id;
      LoadMember(candidates, m);
      LoadMember(candidates, n);
      assert m in multiset(demand) && n in multiset(demand);
      SameIdSameDemand(demand, m, n);
      var k :| 0 <= k < |candidates| && candidates[k] == c;
      var l :| 0 <= l < |candidates| && candidates[l] == d;
      LoadTwice(candidates, if k < l then k else l, if k < l then l else k, m);
      DistinctIdsIsDistinct(demand);
      DistinctCount(demand, m);
    }
  }

  /** What the opened requests add to a baseline. */
  lemma NamedFaithful(w: Wire, asked: DemandId -> Filter, limit: Option<Positive>, constraints: Constraints,
                      demand: seq<RelayDemand>, kept: seq<Candidate>, minted: seq<Option<SubscriptionId>>)
    requires AllSound(w, kept) && DistinctFilters(kept) && Load(kept) <= multiset(demand) && Asks(asked, demand)
    requires forall m :: m in Load(kept) ==> WithinDeclared(limit, m.filter)
    ensures Faithful(asked, limit, Named(Opened(w, kept, constraints), minted))
  {
    var open := Opened(w, kept, constraints);
    var named := Named(open, minted);
    NamedMeaning(open, minted);
    OpenDistinct(w, kept, constraints);
    forall id | id in named
      ensures exists c :: c in kept && named[id] == InstalledSubscription([c.filter], Ids(c.members))
    {
      var i :| 0 <= i < |open| && i < |minted| && minted[i] == Some(id)
               && named[id] == InstalledSubscription(open[i].filters, open[i].serves);
      OpenMember(w, kept, constraints, open[i]);
      assert open[i] in open;
    }
    forall id, d | id in named && d in named[id].serves
      ensures CoveredBy(named[id].filters, asked(d))
    {
      var c :| c in kept && named[id] == InstalledSubscription([c.filter], Ids(c.members));
      MemberCovered(w, asked, demand, kept, c, d);
      assert c.filter in named[id].filters;
    }
    forall id, f | id in named && f in named[id].filters
      ensures WithinDeclared(limit, f)
    {
      var c :| c in kept && named[id] == InstalledSubscription([c.filter], Ids(c.members));
      FilterWithinDeclared(w, limit, kept, c);
    }
    forall a, b | a in named && b in named && a != b
      ensures named[a].serves !! named[b].serves
    {
      var i :| 0 <= i < |open| && i < |minted| && minted[i] == Some(a)
               && named[a] == InstalledSubscription(open[i].filters, open[i].serves);
      var j :| 0 <= j < |open| && j < |minted| && minted[j] == Some(b)
               && named[b] == InstalledSubscription(open[j].filters, open[j].serves);
      assert i != j;
      OpenServesDisjoint(w, constraints, demand, kept, open[i], open[j]);
    }
  }

  lemma OpenServesDisjoint(w: Wire, constraints: Constraints, demand: seq<RelayDemand>, kept: seq<Candidate>,
                           p: Attributed, q: Attributed)
    requires Load(kept) <= multiset(demand) && DistinctIds(demand)
    requires p in Opened(w, kept, constraints) && q in Opened(w, kept, constraints) && p.filters != q.filters
    ensures p.serves !! q.serves
  {
    OpenMember(w, kept, constraints, p);
    OpenMember(w, kept, constraints, q);
    var c :| c in kept && p == Planned(c, constraints);
    var d :| d in kept && q == Planned(d, constraints);
    forall id | id in p.serves
      ensures id !in q.serves
    {
      CandidatesDisjoint(kept, demand, c, d, id);
    }
  }

  lemma MemberCovered(w: Wire, asked: DemandId -> Filter, demand: seq<RelayDemand>, kept: seq<Candidate>, c: Candidate,
                      d: DemandId)
    requires AllSound(w, kept) && Load(kept) <= multiset(demand) && Asks(asked, demand)
    requires c in kept && d in Ids(c.members)
    ensures Covers(c.filter, asked(d))
  {
    var m :| m in c.members && m.id == d;
    LoadMember(kept, m);
    assert m in multiset(demand);
    assert Sound(w, c);
  }

  lemma FilterWithinDeclared(w: Wire, limit: Option<Positive>, kept: seq<Candidate>, c: Candidate)
    requires AllSound(w, kept) && c in kept
    requires forall m :: m in Load(kept) ==> WithinDeclared(limit, m.filter)
    ensures WithinDeclared(limit, c.filter)
  {
    assert Sound(w, c);
    var m := c.members[0];
    assert m in c.members;
    LoadMember(kept, m);
    assert Covers(c.filter, m.filter) && Justified(c.filter, c.members, m);
  }

  /** The retained part of the next baseline. */
  ghost function Retained(installed: Installed, owners: Owners): Installed
    requires owners.Keys <= installed.Keys
  {
    map id | id in owners :: InstalledSubscription(installed[id].filters, owners[id])
  }

  lemma OwnersHosted(asked: DemandId -> Filter, limit: Option<Positive>, admissible: seq<RelayDemand>,
                     installed: Installed, id: SubscriptionId)
    requires Faithful(asked, limit, installed) && DistinctIds(admissible) && id in installed
    ensures Still(admissible, installed, Attach(admissible, installed), id) == Hosted(admissible, installed, id)
  {
    forall d
      ensures d in Still(admissible, installed, Attach(admissible, installed), id)
              <==> d in Hosted(admissible, installed, id)
    {
      OwnersMeaning(admissible, installed, id, d);
      if m :| m in admissible && m.id == d && Serves(installed, id, d) {
        var h := HostFor(m, installed);
        HostForMeaning(m, installed);
        assert h.Some?;
        assert Serves(installed, h.value, d);
        assert h.value == id;
      }
    }
  }

  lemma RetainedFaithful(asked: DemandId -> Filter, limit: Option<Positive>, admissible: seq<RelayDemand>,
                         installed: Installed, owners: Owners)
    requires Faithful(asked, limit, installed) && Asks(asked, admissible)
    requires owners == SurvivingOwners(admissible, installed, Attach(admissible, installed))
    ensures Faithful(asked, limit, Retained(installed, owners))
    ensures forall id :: id in owners ==> owners[id] == Hosted(admissible, installed, id)
  {
    var retained := Retained(installed, owners);
    forall id | id in owners
      ensures owners[id] == Hosted(admissible, installed, id)
    {
      OwnersHosted(asked, limit, admissible, installed, id);
    }
    forall id, d | id in retained && d in retained[id].serves
      ensures CoveredBy(retained[id].filters, asked(d))
    {
      var m :| m in admissible && HostFor(m, installed) == Some(id) && m.id == d;
      HostForMeaning(m, installed);
      assert Serves(installed, id, d) || Contains(installed, id, m.filter);
    }
    forall i, j | i in retained && j in retained && i != j
      ensures retained[i].serves !! retained[j].serves
    {
      forall d | d in retained[i].serves
        ensures d !in retained[j].serves
      {
        HostedOnce(admissible, installed, i, j, d);
      }
    }
  }

  lemma HostedOnce(admissible: seq<RelayDemand>, installed: Installed, i: SubscriptionId, j: SubscriptionId,
                   d: DemandId)
    requires DistinctIds(admissible) && i != j && d in Hosted(admissible, installed, i)
    ensures d !in Hosted(admissible, installed, j)
  {
    var m :| m in admissible && HostFor(m, installed) == Some(i) && m.id == d;
    forall n | n in admissible && n.id == d
      ensures HostFor(n, installed) == Some(i)
    {
      SameIdSameDemand(admissible, m, n);
    }
  }

  lemma UnionFaithful(asked: DemandId -> Filter, limit: Option<Positive>, a: Installed, b: Installed)
    requires Faithful(asked, limit, a) && Faithful(asked, limit, b)
    requires forall i, j :: i in a && j in b ==> a[i].serves !! b[j].serves
    ensures Faithful(asked, limit, a + b)
  {
  }

  lemma ServedWithinLimit(asked: DemandId -> Filter, limit: Option<Positive>, constraints: Constraints,
                          installed: Installed,
                          id: SubscriptionId, d: RelayDemand)
    requires Faithful(asked, limit, installed) && constraints.maxFilterLimit == limit
    requires Serves(installed, id, d.id) && d.filter == asked(d.id)
    ensures !OverLimit(d, constraints)
  {
    assert CoveredBy(installed[id].filters, asked(d.id));
    var g :| g in installed[id].filters && Covers(g, d.filter);
    assert WithinDeclared(limit, g);
  }

  /** In every faithful session the planner's answer passes the conformance kit. */
  lemma FaithfulSessionsConform(w: Wire, relay: RelayUrl, asked: DemandId -> Filter, limit: Option<Positive>, s: State,
                                constraints: Constraints)
    requires SizeGrows(w) && Inv(asked, limit, s) && constraints.maxFilterLimit == limit
    ensures StandardPlan(w, relay, s.demand, constraints, s.installed, 0).Ok?
    ensures Conforms(relay, s.demand, constraints, s.installed,
                     StandardPlan(w, relay, s.demand, constraints, s.installed, 0).value)
  {
    forall id, d | id in s.installed && d in s.demand && Serves(s.installed, id, d.id)
      ensures !OverLimit(d, constraints)
    {
      ServedWithinLimit(asked, limit, constraints, s.installed, id, d);
    }
    StandardPlanConformsWithinLimits(w, relay, s.demand, constraints, s.installed, 0);
  }

  lemma AcceptedRetains(installed: Installed, owners: Owners, plan: Plan, minted: seq<Option<SubscriptionId>>,
                        closed: set<SubscriptionId>)
    requires owners.Keys <= installed.Keys && closed !! owners.Keys
    requires plan.attribution.Keys == owners.Keys
    requires forall id :: id in owners ==> plan.attribution[id].serves == owners[id]
    ensures Accepted(installed, plan, minted, closed) == Retained(installed, owners) + Named(plan.open, minted)
  {
    var kept: Installed := map id | id in installed && id !in closed && id in plan.attribution ::
                  InstalledSubscription(installed[id].filters, plan.attribution[id].serves);
    assert kept.Keys == owners.Keys;
    assert kept == Retained(installed, owners);
  }

  lemma AcceptedShape(relay: RelayUrl, constraints: Constraints, installed: Installed, owners: Owners,
                      open: seq<Attributed>, short: seq<Shortfall>, minted: seq<Option<SubscriptionId>>)
    requires owners.Keys <= installed.Keys
    ensures var plan := Assemble(relay, 0, open, constraints, installed, owners, short);
            Accepted(installed, plan, minted, Elements(plan.close)) == Retained(installed, owners) + Named(open, minted)
  {
    var plan := Assemble(relay, 0, open, constraints, installed, owners, short);
    assert Elements(plan.close) == installed.Keys - owners.Keys;
    AcceptedRetains(installed, owners, plan, minted, Elements(plan.close));
  }

  lemma AdmissibleAsks(asked: DemandId -> Filter, demand: seq<RelayDemand>, constraints: Constraints)
    requires Asks(asked, demand)
    ensures Asks(asked, Admissible(demand, constraints))
  {
    AdmissibleLoad(demand, constraints);
    SubDistinctIds(Admissible(demand, constraints), demand);
    forall d | d in Admissible(demand, constraints)
      ensures d in demand
    {
      AdmissibleMember(demand, constraints, d);
    }
  }

  lemma LoadPrefix(candidates: seq<Candidate>, n: nat)
    requires n <= |candidates|
    ensures Load(candidates[..n]) <= Load(candidates)
  {
    assert candidates == candidates[..n] + candidates[n..];
    LoadSplit(candidates[..n], candidates[n..]);
  }

  /** The opened requests serve demand no running subscription hosts. */
  lemma OpenedUnhosted(w: Wire, demand: seq<RelayDemand>, constraints: Constraints, installed: Installed,
                       kept: seq<Candidate>, minted: seq<Option<SubscriptionId>>, i: SubscriptionId, j: SubscriptionId)
    requires DistinctIds(demand) && Load(kept) <= multiset(demand)
    requires forall m :: m in Load(kept) ==> HostFor(m, installed).None?
    requires j in Named(Opened(w, kept, constraints), minted)
    ensures Hosted(Admissible(demand, constraints), installed, i)
            !! Named(Opened(w, kept, constraints), minted)[j].serves
  {
    var open := Opened(w, kept, constraints);
    NamedMeaning(open, minted);
    var k :| 0 <= k < |open| && k < |minted| && minted[k] == Some(j)
             && Named(open, minted)[j] == InstalledSubscription(open[k].filters, open[k].serves);
    OpenMember(w, kept, constraints, open[k]);
    assert open[k] in open;
    var c :| c in kept && open[k] == Planned(c, constraints);
    forall d | d in open[k].serves
      ensures d !in Hosted(Admissible(demand, constraints), installed, i)
    {
      var m :| m in c.members && m.id == d;
      LoadMember(kept, m);
      assert m in multiset(demand);
      forall n | n in Admissible(demand, constraints) && n.id == d
        ensures HostFor(n, installed).None?
      {
        AdmissibleMember(demand, constraints, n);
        SameIdSameDemand(demand, m, n);
      }
    }
  }

  /** What the opened candidates of one plan satisfy. */
  ghost predicate Openable(w: Wire, limit: Option<Positive>, demand: seq<RelayDemand>, installed: Installed,
                           kept: seq<Candidate>) {
    && AllSound(w, kept) && DistinctFilters(kept) && Load(kept) <= multiset(demand)
    && forall m :: m in Load(kept) ==> WithinDeclared(limit, m.filter) && HostFor(m, installed).None?
  }

  lemma StageOpenable(w: Wire, limit: Option<Positive>, demand: seq<RelayDemand>, constraints: Constraints,
                      installed: Installed, st: Stages)
    requires StageSound(w, demand, constraints, installed, st) && constraints.maxFilterLimit == limit
    ensures Openable(w, limit, demand, installed, st.kept[..st.openCount])
  {
    KeptRequested(w, demand, constraints, installed, st);
    PrefixOpenable(w, limit, demand, constraints, installed, st.kept, st.fitted.refused, st.openCount);
  }

  lemma PrefixSound(w: Wire, candidates: seq<Candidate>, n: nat)
    requires n <= |candidates| && AllSound(w, candidates) && DistinctFilters(candidates)
    ensures AllSound(w, candidates[..n]) && DistinctFilters(candidates[..n])
  {
  }

  lemma PrefixOpenable(w: Wire, limit: Option<Positive>, demand: seq<RelayDemand>, constraints: Constraints,
                       installed: Installed, kept: seq<Candidate>, refused: seq<Candidate>, n: nat)
    requires n <= |kept| && AllSound(w, kept) && DistinctFilters(kept) && constraints.maxFilterLimit == limit
    requires Load(kept) + Load(refused) == multiset(Pending(Admissible(demand, constraints), installed))
    requires forall m :: m in Load(kept) ==> !OverLimit(m, constraints) && HostFor(m, installed).None?
    ensures Openable(w, limit, demand, installed, kept[..n])
  {
    KeptLoad(demand, constraints, installed, kept, refused, n);
    PrefixSound(w, kept, n);
    forall m | m in Load(kept[..n])
      ensures WithinDeclared(limit, m.filter) && HostFor(m, installed).None?
    {
      assert m in Load(kept);
    }
  }

  lemma KeptLoad(demand: seq<RelayDemand>, constraints: Constraints, installed: Installed, kept: seq<Candidate>,
                 refused: seq<Candidate>, n: nat)
    requires n <= |kept|
    requires Load(kept) + Load(refused) == multiset(Pending(Admissible(demand, constraints), installed))
    ensures Load(kept[..n]) <= Load(kept) && Load(kept[..n]) <= multiset(demand)
  {
    LoadPrefix(kept, n);
    AdmissibleLoad(demand, constraints);
    PendingLoad(Admissible(demand, constraints), installed);
  }

  lemma ExecuteFaithful(w: Wire, asked: DemandId -> Filter, limit: Option<Positive>, demand: seq<RelayDemand>,
                        constraints: Constraints, installed: Installed, owners: Owners, kept: seq<Candidate>,
                        minted: seq<Option<SubscriptionId>>)
    requires Asks(asked, demand) && Faithful(asked, limit, installed) && Openable(w, limit, demand, installed, kept)
    requires var admissible := Admissible(demand, constraints);
             owners == SurvivingOwners(admissible, installed, Attach(admissible, installed))
    ensures Faithful(asked, limit, Retained(installed, owners) + Named(Opened(w, kept, constraints), minted))
  {
    var named := Named(Opened(w, kept, constraints), minted);
    AdmissibleAsks(asked, demand, constraints);
    RetainedFaithful(asked, limit, Admissible(demand, constraints), installed, owners);
    NamedFaithful(w, asked, limit, constraints, demand, kept, minted);
    forall i, j | i in Retained(installed, owners) && j in named
      ensures Retained(installed, owners)[i].serves !! named[j].serves
    {
      OpenedUnhosted(w, demand, constraints, installed, kept, minted, i, j);
    }
    UnionFaithful(asked, limit, Retained(installed, owners), named);
  }

  // ----- Every step, every run -----

  lemma ServedStays(asked: DemandId -> Filter, limit: Option<Positive>, s: State, constraints: Constraints,
                    id: SubscriptionId, d: DemandId)
    requires Inv(asked, limit, s) && constraints.maxFilterLimit == limit
    requires Serves(s.installed, id, d) && d in Ids(s.demand)
    ensures var admissible := Admissible(s.demand, constraints);
            var owners := SurvivingOwners(admissible, s.installed, Attach(admissible, s.installed));
            id in owners && d in owners[id]
  {
    var m :| m in s.demand && m.id == d;
    ServedWithinLimit(asked, limit, constraints, s.installed, id, m);
    AdmissibleMember(s.demand, constraints, m);
    OwnersMeaning(Admissible(s.demand, constraints), s.installed, id, d);
  }

  lemma ExecuteUndisturbed(s: State, owners: Owners, named: Installed, minted: set<SubscriptionId>)
    requires owners.Keys <= s.installed.Keys <= s.used
    requires forall id, d :: Serves(s.installed, id, d) && d in Ids(s.demand) ==> id in owners && d in owners[id]
    requires named.Keys <= minted && minted !! s.used
    ensures Undisturbed(s, State(s.demand, Retained(s.installed, owners) + named, s.used + minted))
  {
    assert forall id :: id in s.installed ==> id !in named;
    forall id | id in s.installed && id !in owners
      ensures s.installed[id].serves * Ids(s.demand) == {}
    {
      assert forall d :: d in s.installed[id].serves ==> Serves(s.installed, id, d);
    }
    forall id, d | id in s.installed && d in s.installed[id].serves && d in Ids(s.demand)
      ensures id in owners && d in owners[id]
    {
      assert Serves(s.installed, id, d);
    }
  }

  lemma NamedKeys(open: seq<Attributed>, minted: seq<Option<SubscriptionId>>)
    ensures Named(open, minted).Keys <= MintedIds(minted)
  {
    NamedMeaning(open, minted);
    forall id | id in Named(open, minted)
      ensures id in MintedIds(minted)
    {
      var i :| 0 <= i < |open| && i < |minted| && minted[i] == Some(id);
      assert minted[i] in minted;
    }
  }

  lemma ExecuteKeeps(w: Wire, relay: RelayUrl, asked: DemandId -> Filter, limit: Option<Positive>, s: State,
                     constraints: Constraints, minted: seq<Option<SubscriptionId>>, s': State)
    requires SizeGrows(w) && Inv(asked, limit, s)
    requires Next(w, relay, asked, limit, s, Execute(constraints, minted), s')
    ensures Inv(asked, limit, s') && Undisturbed(s, s')
  {
    PlanOfStages(w, relay, s.demand, constraints, s.installed, 0);
    var st := Stage(w, s.demand, constraints, s.installed);
    var kept := st.kept[..st.openCount];
    StageOpenable(w, limit, s.demand, constraints, s.installed, st);
    AcceptedShape(relay, constraints, s.installed, st.owners, Opened(w, kept, constraints),
                  Shortfalls(w, st, s.demand, constraints), minted);
    ExecuteFaithful(w, asked, limit, s.demand, constraints, s.installed, st.owners, kept, minted);
    NamedKeys(Opened(w, kept, constraints), minted);
    forall id, d | Serves(s.installed, id, d) && d in Ids(s.demand)
      ensures id in st.owners && d in st.owners[id]
    {
      ServedStays(asked, limit, s, constraints, id, d);
    }
    ExecuteUndisturbed(s, st.owners, Named(Opened(w, kept, constraints), minted), MintedIds(minted));
  }

  lemma StepKeeps(w: Wire, relay: RelayUrl, asked: DemandId -> Filter, limit: Option<Positive>, s: State, step: Step,
                  s': State)
    requires SizeGrows(w) && Inv(asked, limit, s) && Next(w, relay, asked, limit, s, step, s')
    ensures Inv(asked, limit, s') && Undisturbed(s, s')
  {
    match step
    case ChangeDemand(demand) =>
    case AttachDemand =>
      AttachOwnersKeeps(asked, limit, s.installed, s.demand);
    case Execute(constraints, minted) =>
      ExecuteKeeps(w, relay, asked, limit, s, constraints, minted, s');
  }

  ghost predicate Run(w: Wire, relay: RelayUrl, asked: DemandId -> Filter, limit: Option<Positive>, run: seq<State>,
                      steps: seq<Step>)
    requires SizeGrows(w)
  {
    && |run| == |steps| + 1
    && Initial(asked, run[0])
    && forall i :: 0 <= i < |steps| ==> Next(w, relay, asked, limit, run[i], steps[i], run[i + 1])
  }

  lemma {:induction false} RunInv(w: Wire, relay: RelayUrl, asked: DemandId -> Filter, limit: Option<Positive>,
                                  run: seq<State>, steps: seq<Step>, i: nat)
    requires SizeGrows(w) && Run(w, relay, asked, limit, run, steps) && i < |run|
    ensures Inv(asked, limit, run[i])
    ensures i > 0 ==> Undisturbed(run[i - 1], run[i])
  {
    if i > 0 {
      RunInv(w, relay, asked, limit, run, steps, i - 1);
      assert Next(w, relay, asked, limit, run[i - 1], steps[i - 1], run[i - 1 + 1]);
      StepKeeps(w, relay, asked, limit, run[i - 1], steps[i - 1], run[i]);
    }
  }

  /** The subscription went away at step `k`, when nothing current was served by it. */
  ghost predicate WithdrawnUnwanted(run: seq<State>, id: SubscriptionId, k: int) {
    && 0 <= k < |run| - 1
    && id in run[k].installed && id !in run[k + 1].installed
    && run[k].installed[id].serves * Ids(run[k].demand) == {}
  }

  /** Over every run a running subscription's filters never change, and it goes away
      only when no current demand it serves is left. */
  lemma {:induction false} RunningSubscriptionsAreImmutable(w: Wire, relay: RelayUrl, asked: DemandId -> Filter,
                                                            limit: Option<Positive>,
                                                            run: seq<State>, steps: seq<Step>, i: nat, j: nat,
                                                              id: SubscriptionId)
    requires SizeGrows(w) && Run(w, relay, asked, limit, run, steps) && i <= j < |run| && id in run[i].installed
    ensures id in run[j].used
    ensures id in run[j].installed ==> run[j].installed[id].filters == run[i].installed[id].filters
    ensures id !in run[j].installed ==> exists k :: i <= k < j && WithdrawnUnwanted(run, id, k)
    decreases j - i
  {
    RunInv(w, relay, asked, limit, run, steps, j);
    RunInv(w, relay, asked, limit, run, steps, i);
    if i < j {
      RunningSubscriptionsAreImmutable(w, relay, asked, limit, run, steps, i, j - 1, id);
      assert Undisturbed(run[j - 1], run[j]);
      if id in run[j - 1].installed && id !in run[j].installed {
        assert WithdrawnUnwanted(run, id, j - 1);
      }
    }
  }

  /** In every state of every run each demand is served by at most one subscription,
      every serving subscription covers the demand's own filter, and the planner's
      next answer passes the conformance kit. */
  lemma RunningSubscriptionsAreFaithful(w: Wire, relay: RelayUrl, asked: DemandId -> Filter, limit: Option<Positive>,
                                        run: seq<State>, steps: seq<Step>, i: nat, constraints: Constraints)
    requires SizeGrows(w) && Run(w, relay, asked, limit, run, steps) && i < |run| && constraints.maxFilterLimit == limit
    ensures forall a, b, d :: Serves(run[i].installed, a, d) && Serves(run[i].installed, b, d) ==> a == b
    ensures forall id, d :: Serves(run[i].installed, id, d) ==> CoveredBy(run[i].installed[id].filters, asked(d))
    ensures StandardPlan(w, relay, run[i].demand, constraints, run[i].installed, 0).Ok?
    ensures Conforms(relay, run[i].demand, constraints, run[i].installed,
                     StandardPlan(w, relay, run[i].demand, constraints, run[i].installed, 0).value)
  {
    RunInv(w, relay, asked, limit, run, steps, i);
    FaithfulSessionsConform(w, relay, asked, limit, run[i], constraints);
  }

  // ----- What events reach -----

  /** Some running subscription that serves the demand asks the relay for the event. */
  ghost predicate Hears(installed: Installed, d: DemandId, e: Event) {
    exists id :: Serves(installed, id, d) && exists f :: f in installed[id].filters && Matches(f, e)
  }

  /** The demand one event reaches over the running subscriptions, after local refiltering. */
  ghost function HeardBy(s: State, e: Event): set<DemandId> {
    set d | d in s.demand && Matches(d.filter, e) && Hears(s.installed, d.id, e) :: d.id
  }

  ghost function ServedMatches(s: State, e: Event): set<DemandId> {
    set d | d in s.demand && Matches(d.filter, e) && (exists id :: Serves(s.installed, id, d.id)) :: d.id
  }

  /** In every state of every run each event reaches exactly the served demand whose own
      filter matches it, however widely the running requests are shared. */
  lemma EveryStateDeliversExactly(w: Wire, relay: RelayUrl, asked: DemandId -> Filter, limit: Option<Positive>,
                                  run: seq<State>, steps: seq<Step>, i: nat, e: Event)
    requires SizeGrows(w) && Run(w, relay, asked, limit, run, steps) && i < |run|
    ensures HeardBy(run[i], e) == ServedMatches(run[i], e)
  {
    RunInv(w, relay, asked, limit, run, steps, i);
    InvDelivers(asked, limit, run[i], e);
  }

  lemma InvDelivers(asked: DemandId -> Filter, limit: Option<Positive>, s: State, e: Event)
    requires Inv(asked, limit, s)
    ensures HeardBy(s, e) == ServedMatches(s, e)
  {
    forall d, id | d in s.demand && Matches(d.filter, e) && Serves(s.installed, id, d.id)
      ensures Hears(s.installed, d.id, e)
    {
      CoveredReaches(s.installed[id].filters, d.filter, e);
    }
  }
}
