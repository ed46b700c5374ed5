/** What the standard plan contains, stage by stage. */
module PlanFacts {
  import opened Prelude
  import opened Orders
  import opened Events
  import opened Filters
  import opened Demand
  import opened Grouping
  import opened Planner

  /** The identities a candidate list carries. */
  ghost function CarriedIds(candidates: seq<Candidate>): set<DemandId> {
    set m | m in Load(candidates) :: m.id
  }

  function ShortIds(shortfalls: seq<Shortfall>): set<DemandId> {
    set s | s in shortfalls :: s.demand
  }

  function OpenIds(open: seq<Attributed>): set<DemandId> {
    set p, id | p in open && id in p.serves :: id
  }

  lemma {:induction false} ShortIdsAppend(a: seq<Shortfall>, b: seq<Shortfall>)
    ensures ShortIds(a + b) == ShortIds(a) + ShortIds(b)
  {
  }

  /** What holds of the intermediate answers of every planning call. */
  ghost predicate StageSound(w: Wire, demand: seq<RelayDemand>, constraints: Constraints, installed: Installed,
                             s: Stages) {
    && s.admissible == Admissible(demand, constraints)
    && s.pending == Pending(s.admissible, installed)
    && s.owners == SurvivingOwners(s.admissible, installed, Attach(s.admissible, installed))
    && AllSound(w, s.kept) && DistinctFilters(s.kept)
    && Load(s.kept) + Load(s.fitted.refused) == multiset(s.pending)
    && AllSound(w, s.fitted.refused)
    && RefusedSingly(s, constraints)
    && (forall c :: c in s.kept ==> RunningTwin(c, installed).None?)
    && s.openCount == Residual(constraints, |s.owners|, |s.kept|)
  }

  /** The plan the stages are assembled into. */
  ghost function PlanFrom(w: Wire, relay: RelayUrl, demand: seq<RelayDemand>, constraints: Constraints,
                          installed: Installed, revision: nat, s: Stages): Plan
    requires s.openCount <= |s.kept| && RefusedSingly(s, constraints)
  {
    Assemble(relay, revision, Opened(w, s.kept[..s.openCount], constraints), constraints, installed,
             s.owners, Shortfalls(w, s, demand, constraints))
  }

  lemma StageFacts(w: Wire, demand: seq<RelayDemand>, constraints: Constraints, installed: Installed)
    requires SizeGrows(w)
    ensures StageSound(w, demand, constraints, installed, Stage(w, demand, constraints, installed))
    ensures Stage(w, demand, constraints, installed).kept == Stage(w, demand, constraints, installed).folded
  {
    var s := Stage(w, demand, constraints, installed);
    StandardRegroups(w, constraints);
    FitKeeps(w, StandardGrouper(w, constraints), StandardGrouper(w, constraints)(s.pending), constraints);
    JoinAllKeeps(w, [], s.fitted.carried);
    JoinAllLoad([], s.fitted.carried);
    KeptHaveNoTwin(w, s.admissible, s.pending, s.folded, s.fitted.refused, installed);
    FoldIntoRunningIsIdle(w, s.folded, installed, Attach(s.admissible, installed));
    assert s.fitted.refused != [] ==> s.fitted.refused[0] in s.fitted.refused;
  }

  lemma KeptHaveNoTwin(w: Wire, admissible: seq<RelayDemand>, pending: seq<RelayDemand>, folded: seq<Candidate>,
                       refused: seq<Candidate>, installed: Installed)
    requires AllSound(w, folded) && pending == Pending(admissible, installed)
    requires Load(folded) + Load(refused) == multiset(pending)
    ensures forall m :: m in Load(folded) ==> HostFor(m, installed).None?
    ensures forall c :: c in folded ==> RunningTwin(c, installed).None?
  {
    forall m | m in Load(folded)
      ensures HostFor(m, installed).None?
    {
      assert m in multiset(pending);
      PendingMember(admissible, installed, m);
    }
    forall c | c in folded
      ensures RunningTwin(c, installed).None?
    {
      assert Sound(w, c);
      assert c.members[0] in c.members;
      LoadMember(folded, c.members[0]);
      NoTwin(w, c, installed);
    }
  }

  // ----- Who is served by what runs -----

  /** The owners of one running subscription, directly. */
  lemma OwnersMeaning(demand: seq<RelayDemand>, installed: Installed, id: SubscriptionId, d: DemandId)
    requires id in installed
    ensures d in Still(demand, installed, Attach(demand, installed), id)
            <==> exists m :: m in demand && m.id == d && (Serves(installed, id, d) || HostFor(m, installed) == Some(id))
  {
    var attached := Attach(demand, installed);
    assert Joined(attached, id) == Hosted(demand, installed, id);
  }

  lemma OwnersKeys(demand: seq<RelayDemand>, installed: Installed, id: SubscriptionId)
    ensures id in SurvivingOwners(demand, installed, Attach(demand, installed))
            <==> id in installed
                 && exists m :: m in demand && (Serves(installed, id, m.id) || HostFor(m, installed) == Some(id))
  {
    forall m | m in demand
      ensures HostFor(m, installed) == Some(id) ==> id in installed
    {
      HostForMeaning(m, installed);
    }
    if id in installed {
      var still := Still(demand, installed, Attach(demand, installed), id);
      if d :| d in still {
        OwnersMeaning(demand, installed, id, d);
      }
      if m :| m in demand && (Serves(installed, id, m.id) || HostFor(m, installed) == Some(id)) {
        OwnersMeaning(demand, installed, id, m.id);
      }
    }
  }

  // ----- What is opened -----

  lemma OpenMember(w: Wire, candidates: seq<Candidate>, constraints: Constraints, p: Attributed)
    ensures p in Opened(w, candidates, constraints)
            <==> exists c :: c in candidates && p == Planned(c, constraints)
  {
    var all := PlannedAll(candidates, constraints);
    MultisetMember(SortBy(all, OpenOrder(w)), all, p);
    if c :| c in candidates && p == Planned(c, constraints) {
      var i :| 0 <= i < |candidates| && candidates[i] == c;
      assert all[i] == p;
    }
    if p in all {
      var i :| 0 <= i < |all| && all[i] == p;
      assert candidates[i] in candidates && p == Planned(candidates[i], constraints);
    }
  }

  lemma OpenDistinct(w: Wire, candidates: seq<Candidate>, constraints: Constraints)
    requires DistinctFilters(candidates)
    ensures var open := Opened(w, candidates, constraints);
            forall i, j :: 0 <= i < j < |open| ==> open[i].filters != open[j].filters
  {
    var all := PlannedAll(candidates, constraints);
    var open := SortBy(all, OpenOrder(w));
    assert forall i, j :: 0 <= i < j < |all| ==> all[i] != all[j] by {
      forall i, j | 0 <= i < j < |all|
        ensures all[i] != all[j]
      {
        assert all[i].filters == [candidates[i].filter] && all[j].filters == [candidates[j].filter];
        assert all[i].filters[0] != all[j].filters[0];
      }
    }
    DistinctPermutation(all, open);
    forall i, j | 0 <= i < j < |open|
      ensures open[i].filters != open[j].filters
    {
      var a, b := open[i], open[j];
      OpenMember(w, candidates, constraints, a);
      OpenMember(w, candidates, constraints, b);
      var c :| c in candidates && a == Planned(c, constraints);
      var d :| d in candidates && b == Planned(d, constraints);
      var k :| 0 <= k < |candidates| && candidates[k] == c;
      var l :| 0 <= l < |candidates| && candidates[l] == d;
      assert k != l;
      assert a.filters[0] != b.filters[0];
    }
  }

  lemma OpenIdsMeaning(w: Wire, candidates: seq<Candidate>, constraints: Constraints)
    ensures OpenIds(Opened(w, candidates, constraints)) == CarriedIds(candidates)
  {
    var open := Opened(w, candidates, constraints);
    forall id | id in OpenIds(open)
      ensures id in CarriedIds(candidates)
    {
      var p :| p in open && id in p.serves;
      OpenMember(w, candidates, constraints, p);
      var c :| c in candidates && p == Planned(c, constraints);
      var m :| m in c.members && m.id == id;
      LoadMember(candidates, m);
    }
    forall id | id in CarriedIds(candidates)
      ensures id in OpenIds(open)
    {
      var m :| m in Load(candidates) && m.id == id;
      LoadMember(candidates, m);
      var i :| 0 <= i < |candidates| && m in candidates[i].members;
      var p := Planned(candidates[i], constraints);
      OpenMember(w, candidates, constraints, p);
      assert id in p.serves;
    }
  }

  // ----- What is reported short -----

  lemma TooLargeIds(w: Wire, refused: seq<Candidate>, constraints: Constraints)
    requires constraints.maxMessageBytes.Some? || refused == []
    requires forall c :: c in refused ==> |c.members| == 1
    ensures ShortIds(TooLarge(w, refused, constraints)) == CarriedIds(refused)
  {
    var short := TooLarge(w, refused, constraints);
    forall id | id in CarriedIds(refused)
      ensures id in ShortIds(short)
    {
      var m :| m in Load(refused) && m.id == id;
      LoadMember(refused, m);
      var i :| 0 <= i < |refused| && m in refused[i].members;
      assert refused[i] in refused && refused[i].members[0] == m;
      assert short[i] in short && short[i].demand == id;
    }
    forall id | id in ShortIds(short)
      ensures id in CarriedIds(refused)
    {
      var i :| 0 <= i < |short| && short[i].demand == id;
      assert refused[i] in refused;
      var m := refused[i].members[0];
      assert m in refused[i].members;
      LoadMember(refused, m);
    }
  }

  lemma ExhaustedByIds(ids: seq<DemandId>, required: nat, maximum: nat)
    ensures ShortIds(ExhaustedBy(ids, required, maximum)) == Elements(ids)
  {
    var short := ExhaustedBy(ids, required, maximum);
    assert forall i :: 0 <= i < |ids| ==> short[i].demand == ids[i];
    forall id | id in Elements(ids)
      ensures id in ShortIds(short)
    {
      var i :| 0 <= i < |ids| && ids[i] == id;
      assert short[i] in short;
    }
  }

  lemma CarriedIdsHead(candidates: seq<Candidate>)
    requires candidates != []
    ensures CarriedIds(candidates) == Ids(candidates[0].members) + CarriedIds(candidates[1..])
  {
    forall id | id in Ids(candidates[0].members)
      ensures id in CarriedIds(candidates)
    {
      var m :| m in candidates[0].members && m.id == id;
      assert m in Load(candidates);
    }
    forall id | id in CarriedIds(candidates[1..])
      ensures id in CarriedIds(candidates)
    {
      var m :| m in Load(candidates[1..]) && m.id == id;
      assert m in Load(candidates);
    }
  }

  lemma {:induction false} ExhaustedIds(dropped: seq<Candidate>, required: nat, maximum: nat)
    ensures ShortIds(Exhausted(dropped, required, maximum)) == CarriedIds(dropped)
  {
    if dropped != [] {
      ExhaustedIds(dropped[1..], required, maximum);
      var ids := AscendingIds(Ids(dropped[0].members));
      ExhaustedByIds(ids, required, maximum);
      assert Elements(ids) == Ids(dropped[0].members);
      ShortIdsAppend(ExhaustedBy(ids, required, maximum), Exhausted(dropped[1..], required, maximum));
      CarriedIdsHead(dropped);
    }
  }

  lemma LimitIds(demand: seq<RelayDemand>, constraints: Constraints)
    ensures ShortIds(LimitShortfalls(demand, constraints))
            == set d | d in demand && OverLimit(d, constraints) :: d.id
  {
    forall id: DemandId
      ensures id in ShortIds(LimitShortfalls(demand, constraints))
              <==> exists d :: d in demand && OverLimit(d, constraints) && d.id == id
    {
      LimitShortfallMember(demand, constraints, id);
    }
  }

  ghost function LimitedIds(demand: seq<RelayDemand>, constraints: Constraints): set<DemandId> {
    set d | d in demand && OverLimit(d, constraints) :: d.id
  }

  /** Exactly which demand a plan reports as not carried. */
  lemma ShortfallsMeaning(w: Wire, s: Stages, demand: seq<RelayDemand>, constraints: Constraints)
    requires s.openCount <= |s.kept| && RefusedSingly(s, constraints)
    requires constraints.maxSubscriptions.None? ==> s.openCount == |s.kept|
    ensures ShortIds(Shortfalls(w, s, demand, constraints))
            == LimitedIds(demand, constraints) + CarriedIds(s.fitted.refused) + CarriedIds(s.kept[s.openCount..])
  {
    LimitIds(demand, constraints);
    TooLargeIds(w, s.fitted.refused, constraints);
    ResidualIds(s, constraints);
    ShortIdsThree(LimitShortfalls(demand, constraints), TooLarge(w, s.fitted.refused, constraints),
                  ResidualShortfalls(s, constraints));
  }

  lemma ShortIdsThree(a: seq<Shortfall>, b: seq<Shortfall>, c: seq<Shortfall>)
    ensures ShortIds(a + b + c) == ShortIds(a) + ShortIds(b) + ShortIds(c)
  {
    ShortIdsAppend(a, b);
    ShortIdsAppend(a + b, c);
  }

  lemma ResidualIds(s: Stages, constraints: Constraints)
    requires s.openCount <= |s.kept|
    requires constraints.maxSubscriptions.None? ==> s.openCount == |s.kept|
    ensures ShortIds(ResidualShortfalls(s, constraints)) == CarriedIds(s.kept[s.openCount..])
  {
    if constraints.maxSubscriptions.Some? {
      ExhaustedIds(s.kept[s.openCount..], |s.owners| + |s.kept|, constraints.maxSubscriptions.value);
    } else {
      assert s.kept[s.openCount..] == [];
    }
  }

  /** The plan of distinct demand, read off its stages. */
  lemma PlanOfStages(w: Wire, relay: RelayUrl, demand: seq<RelayDemand>, constraints: Constraints,
                     installed: Installed, revision: nat)
    requires SizeGrows(w) && DistinctIds(demand)
    ensures var s := Stage(w, demand, constraints, installed);
            && StageSound(w, demand, constraints, installed, s)
            && StandardPlan(w, relay, demand, constraints, installed, revision)
               == Ok(PlanFrom(w, relay, demand, constraints, installed, revision, s))
  {
    FirstDuplicateMeaning(demand, {});
    StageFacts(w, demand, constraints, installed);
  }

  /** Each demand's fate, before the residual budget is applied. */
  lemma DemandFate(w: Wire, demand: seq<RelayDemand>, constraints: Constraints, installed: Installed, d: RelayDemand)
    requires SizeGrows(w) && DistinctIds(demand) && d in demand
    ensures var s := Stage(w, demand, constraints, installed);
            && (!OverLimit(d, constraints) && HostFor(d, installed).None?
                <==> d.id in CarriedIds(s.kept) || d.id in CarriedIds(s.fitted.refused))
            && (d.id in CarriedIds(s.fitted.refused)
                <==> !OverLimit(d, constraints) && HostFor(d, installed).None? && !Fits(w, d.filter, constraints))
            && (d.id in CarriedIds(s.kept)
                <==> !OverLimit(d, constraints) && HostFor(d, installed).None? && Fits(w, d.filter, constraints))
  {
    var s := Stage(w, demand, constraints, installed);
    StageFacts(w, demand, constraints, installed);
    PendingOf(demand, constraints, installed, d);
    assert d in s.pending ==> (d in Load(s.fitted.refused) <==> !Fits(w, d.filter, constraints))
                              && (d in Load(s.fitted.carried) <==> Fits(w, d.filter, constraints)) by {
      PendingFate(w, constraints, s.pending, d);
    }
    assert Load(s.kept) == Load(s.fitted.carried) by {
      JoinAllLoad([], s.fitted.carried);
    }
    CarriedBelongs(demand, s.kept, s.fitted.refused, s.pending, d);
    CarriedBelongs(demand, s.fitted.refused, s.kept, s.pending, d);
  }

  lemma PendingFate(w: Wire, constraints: Constraints, pending: seq<RelayDemand>, d: RelayDemand)
    requires SizeGrows(w)
    ensures Regroups(w, StandardGrouper(w, constraints))
    ensures var fitted := FitMessageBound(w, StandardGrouper(w, constraints), StandardGrouper(w, constraints)(pending),
                                          constraints);
            d in pending ==> (d in Load(fitted.refused) <==> !Fits(w, d.filter, constraints))
                             && (d in Load(fitted.carried) <==> Fits(w, d.filter, constraints))
  {
    StandardRegroups(w, constraints);
    if d in pending {
      assert d in multiset(pending);
      RefusedExactly(w, StandardGrouper(w, constraints), StandardGrouper(w, constraints)(pending), constraints, d);
    }
  }

  lemma PendingOf(demand: seq<RelayDemand>, constraints: Constraints, installed: Installed, d: RelayDemand)
    requires d in demand
    ensures d in Pending(Admissible(demand, constraints), installed)
            <==> !OverLimit(d, constraints) && HostFor(d, installed).None?
    ensures forall m :: m in Pending(Admissible(demand, constraints), installed) ==> m in demand
  {
    PendingMember(Admissible(demand, constraints), installed, d);
    AdmissibleMember(demand, constraints, d);
    forall m | m in Pending(Admissible(demand, constraints), installed)
      ensures m in demand
    {
      PendingMember(Admissible(demand, constraints), installed, m);
      AdmissibleMember(demand, constraints, m);
    }
  }

  lemma CarriedBelongs(demand: seq<RelayDemand>, some: seq<Candidate>, others: seq<Candidate>,
                       pending: seq<RelayDemand>, d: RelayDemand)
    requires DistinctIds(demand) && d in demand && forall m :: m in pending ==> m in demand
    requires Load(some) + Load(others) == multiset(pending)
    ensures d.id in CarriedIds(some) <==> d in Load(some)
    ensures d in Load(some) ==> d in pending
  {
    if d in Load(some) {
      assert d in multiset(pending);
    }
    if d.id in CarriedIds(some) {
      var m :| m in Load(some) && m.id == d.id;
      assert m in multiset(pending);
      SameIdSameDemand(demand, m, d);
    }
  }
}
