/** The planner as it runs: work lists, candidate vectors and maps changed step by
    step, each method proved to compute the function the theorems speak about. */
module PlannerLoops {
  import opened Prelude
  import opened Orders
  import opened Events
  import opened Filters
  import opened Demand
  import opened Grouping
  import opened Planner
  import opened PlanFacts
  import opened Conformance
  import opened Differential
  import opened Session

  // ----- Grouping -----

  /** Position of the candidate already carrying a filter, or the length. */
  method Find(pool: seq<Candidate>, f: Filter) returns (at: nat)
    ensures at <= |pool|
    ensures forall k :: 0 <= k < at ==> pool[k].filter != f
    ensures at < |pool| ==> pool[at].filter == f
  {
    at := 0;
    while at < |pool| && pool[at].filter != f
      invariant at <= |pool|
      invariant forall k :: 0 <= k < at ==> pool[k].filter != f
    {
      at := at + 1;
    }
  }

  lemma {:induction false} JoinAt(pool: seq<Candidate>, c: Candidate, at: nat)
    requires at <= |pool|
    requires forall k :: 0 <= k < at ==> pool[k].filter != c.filter
    requires at < |pool| ==> pool[at].filter == c.filter
    ensures Join(pool, c) == if at < |pool| then pool[at := Candidate(c.filter, pool[at].members + c.members)]
                             else pool + [c]
  {
    if pool != [] && at > 0 {
      JoinAt(pool[1..], c, at - 1);
    }
  }

  /** Folds candidates carrying identical filters into one, keeping first-seen order. */
  method FoldIdentical(candidates: seq<Candidate>) returns (folded: seq<Candidate>)
    ensures folded == JoinAll([], candidates)
  {
    folded := [];
    var i := 0;
    while i < |candidates|
      invariant i <= |candidates|
      invariant JoinAll(folded, candidates[i..]) == JoinAll([], candidates)
    {
      var c := candidates[i];
      var at := Find(folded, c.filter);
      JoinAt(folded, c, at);
      if at < |folded| {
        folded := folded[at := Candidate(c.filter, folded[at].members + c.members)];
      } else {
        folded := folded + [c];
      }
      assert candidates[i..][1..] == candidates[i + 1..];
      i := i + 1;
    }
  }

  /** Merges the first mergeable pair until none is left. */
  method MergePairs(start: seq<Candidate>) returns (candidates: seq<Candidate>)
    ensures candidates == MergeToFixedPoint(start)
    ensures Stuck(candidates)
  {
    candidates := start;
    var pair := FirstMergeablePair(candidates, 0);
    while pair.Some?
      invariant pair == FirstMergeablePair(candidates, 0)
      invariant MergeToFixedPoint(candidates) == MergeToFixedPoint(start)
      decreases |candidates|
    {
      var (left, right) := pair.value;
      var merged := MergeOnSoleDifferingAxis(candidates[left].filter, candidates[right].filter).value;
      var joined := Candidate(merged, candidates[left].members + candidates[right].members);
      candidates := (candidates[..right] + candidates[right + 1..])[left := joined];
      pair := FirstMergeablePair(candidates, 0);
    }
  }

  method GroupDemand(w: Wire, demand: seq<RelayDemand>, constraints: Constraints) returns (grouped: seq<Candidate>)
    ensures grouped == Group(w, demand, constraints)
  {
    var candidates := FoldIdentical(Singletons(CanonicalOrder(w, demand)));
    if constraints.defaultFilterLimit.None? {
      candidates := MergePairs(candidates);
    }
    grouped := FoldIdentical(candidates);
  }

  // ----- The message bound -----

  method RegroupHalves(w: Wire, c: Candidate, constraints: Constraints) returns (halves: seq<Candidate>)
    ensures halves == Halves(StandardGrouper(w, constraints), c)
  {
    var middle := (|c.members| + 1) / 2;
    var left := GroupDemand(w, c.members[..middle], constraints);
    var right := GroupDemand(w, c.members[middle..], constraints);
    halves := left + right;
  }

  /** What is decided so far and what the queue still decides make up the whole. */
  ghost predicate Remaining(w: Wire, group: Grouper, constraints: Constraints,
                            queue: seq<Candidate>, carried: seq<Candidate>, refused: seq<Candidate>, whole: Fitted)
    requires Regroups(w, group)
  {
    var rest := FitMessageBound(w, group, queue, constraints);
    Fitted(carried + rest.carried, refused + rest.refused) == whole
  }

  lemma DecideOne(w: Wire, group: Grouper, constraints: Constraints, c: Candidate, queue: seq<Candidate>,
                  carried: seq<Candidate>, refused: seq<Candidate>, whole: Fitted)
    requires Regroups(w, group) && Remaining(w, group, constraints, [c] + queue, carried, refused, whole)
    ensures c.members == [] ==> Remaining(w, group, constraints, queue, carried, refused, whole)
    ensures c.members != [] && Fits(w, c.filter, constraints) ==>
              Remaining(w, group, constraints, queue, carried + [c], refused, whole)
    ensures |c.members| == 1 && !Fits(w, c.filter, constraints) ==>
              Remaining(w, group, constraints, queue, carried, refused + [c], whole)
    ensures |c.members| > 1 && !Fits(w, c.filter, constraints) ==>
              Remaining(w, group, constraints, queue + Halves(group, c), carried, refused, whole)
  {
    assert ([c] + queue)[1..] == queue;
    var rest := FitMessageBound(w, group, queue, constraints);
    assert carried + ([c] + rest.carried) == carried + [c] + rest.carried;
    assert refused + ([c] + rest.refused) == refused + [c] + rest.refused;
  }

  lemma NothingDecided(w: Wire, group: Grouper, constraints: Constraints, queue: seq<Candidate>)
    requires Regroups(w, group)
    ensures Remaining(w, group, constraints, queue, [], [], FitMessageBound(w, group, queue, constraints))
  {
  }

  lemma AllDecided(w: Wire, group: Grouper, constraints: Constraints,
                   carried: seq<Candidate>, refused: seq<Candidate>, whole: Fitted)
    requires Regroups(w, group) && Remaining(w, group, constraints, [], carried, refused, whole)
    ensures Fitted(carried, refused) == whole
  {
  }

  /** The split-and-regroup work loop. */
  method SplitToFit(w: Wire, grouped: seq<Candidate>, constraints: Constraints)
    returns (carried: seq<Candidate>, refused: seq<Candidate>)
    requires SizeGrows(w)
    ensures Regroups(w, StandardGrouper(w, constraints))
    ensures Fitted(carried, refused) == FitMessageBound(w, StandardGrouper(w, constraints), grouped, constraints)
  {
    StandardRegroups(w, constraints);
    ghost var group := StandardGrouper(w, constraints);
    carried, refused := SplitLoop(w, group, grouped, constraints);
  }

  method SplitLoop(w: Wire, ghost group: Grouper, grouped: seq<Candidate>, constraints: Constraints)
    returns (carried: seq<Candidate>, refused: seq<Candidate>)
    requires Regroups(w, group) && group == StandardGrouper(w, constraints)
    ensures Fitted(carried, refused) == FitMessageBound(w, group, grouped, constraints)
  {
    hide Remaining, FitMessageBound, Weight, Halves, Regroups;
    var queue := grouped;
    carried, refused := [], [];
    ghost var whole := FitMessageBound(w, group, grouped, constraints);
    NothingDecided(w, group, constraints, grouped);
    while queue != []
      invariant Remaining(w, group, constraints, queue, carried, refused, whole)
      decreases Weight(queue), |queue|
    {
      var c, rest := queue[0], queue[1..];
      assert queue == [c] + rest;
      DecideOne(w, group, constraints, c, rest, carried, refused, whole);
      PopShrinks(c, rest);
      if c.members == [] {
        queue := rest;
      } else if Fits(w, c.filter, constraints) {
        carried, queue := carried + [c], rest;
      } else if |c.members| == 1 {
        refused, queue := refused + [c], rest;
      } else {
        SplitShrinks(w, group, c, rest);
        var halves := RegroupHalves(w, c, constraints);
        queue := rest + halves;
      }
    }
    AllDecided(w, group, constraints, carried, refused, whole);
  }

  // ----- Attaching -----

  method FindHost(d: RelayDemand, installed: Installed) returns (host: Option<SubscriptionId>)
    ensures host == HostFor(d, installed)
  {
    var ids := Ascending(installed.Keys);
    var covering: Option<SubscriptionId> := None;
    var i := 0;
    while i < |ids|
      invariant i <= |ids|
      invariant HostAmong(d, ids[i..], installed, covering) == HostFor(d, installed)
    {
      if Serves(installed, ids[i], d.id) {
        return Some(ids[i]);
      }
      if covering.None? && Contains(installed, ids[i], d.filter) {
        covering := Some(ids[i]);
      }
      assert ids[i..][1..] == ids[i + 1..];
      i := i + 1;
    }
    return covering;
  }

  type Hosting = RelayDemand -> Option<SubscriptionId>

  function Hosts(installed: Installed): Hosting {
    (d: RelayDemand) => HostFor(d, installed)
  }

  /** The admission loop's accumulators, one demand at a time. */
  function AdmitFrom(demand: seq<RelayDemand>, host: Hosting, attached: Owners,
                     pending: seq<RelayDemand>): (Owners, seq<RelayDemand>)
    decreases |demand|
  {
    if demand == [] then (attached, pending)
    else
      var found := host(demand[0]);
      if found.Some? then
        AdmitFrom(demand[1..], host, attached[found.value := Joined(attached, found.value) + {demand[0].id}], pending)
      else
        AdmitFrom(demand[1..], host, attached, pending + [demand[0]])
  }

  /** Sorts demand into what is already served and what is still unsent. */
  method AdmitDemand(demand: seq<RelayDemand>, installed: Installed)
    returns (attached: Owners, pending: seq<RelayDemand>)
    ensures attached == Attach(demand, installed) && pending == Pending(demand, installed)
  {
    ghost var host := Hosts(installed);
    attached, pending := map[], [];
    var i := 0;
    while i < |demand|
      invariant i <= |demand|
      invariant AdmitFrom(demand[i..], host, attached, pending) == AdmitFrom(demand, host, map[], [])
    {
      var d := demand[i];
      var found := FindHost(d, installed);
      assert demand[i..][1..] == demand[i + 1..];
      if found.Some? {
        attached := attached[found.value := Joined(attached, found.value) + {d.id}];
      } else {
        pending := pending + [d];
      }
      i := i + 1;
    }
    AdmitFromPending(demand, host, map[], []);
    PendingMeaning(demand, installed);
    AttachMeaning(demand, installed);
  }

  ghost function PendingBy(demand: seq<RelayDemand>, host: Hosting): seq<RelayDemand> {
    if demand == [] then []
    else (if host(demand[0]).None? then [demand[0]] else []) + PendingBy(demand[1..], host)
  }

  lemma {:induction false} PendingMeaning(demand: seq<RelayDemand>, installed: Installed)
    ensures PendingBy(demand, Hosts(installed)) == Pending(demand, installed)
  {
    if demand != [] {
      PendingMeaning(demand[1..], installed);
    }
  }

  lemma {:induction false} AdmitFromPending(demand: seq<RelayDemand>, host: Hosting, attached: Owners,
                                            pending: seq<RelayDemand>)
    ensures AdmitFrom(demand, host, attached, pending).1 == pending + PendingBy(demand, host)
    decreases |demand|
  {
    if demand != [] {
      var found := host(demand[0]);
      if found.Some? {
        AdmitFromPending(demand[1..], host, attached[found.value := Joined(attached, found.value) + {demand[0].id}],
                         pending);
      } else {
        AdmitFromPending(demand[1..], host, attached, pending + [demand[0]]);
      }
    }
  }

  ghost function HostedBy(demand: seq<RelayDemand>, host: Hosting, id: SubscriptionId): set<DemandId> {
    set d | d in demand && host(d) == Some(id) :: d.id
  }

  ghost predicate NoneEmpty(attached: Owners) {
    forall id :: id in attached ==> attached[id] != {}
  }

  lemma {:induction false} AdmitFromAttached(demand: seq<RelayDemand>, host: Hosting, attached: Owners,
                                             pending: seq<RelayDemand>, id: SubscriptionId)
    requires NoneEmpty(attached)
    ensures NoneEmpty(AdmitFrom(demand, host, attached, pending).0)
    ensures Joined(AdmitFrom(demand, host, attached, pending).0, id)
            == Joined(attached, id) + HostedBy(demand, host, id)
    decreases |demand|
  {
    if demand != [] {
      HostedHead(demand, host, id);
      var found := host(demand[0]);
      if found.Some? {
        var after := attached[found.value := Joined(attached, found.value) + {demand[0].id}];
        assert Joined(after, id) == Joined(attached, id) + (if found == Some(id) then {demand[0].id} else {});
        AdmitFromAttached(demand[1..], host, after, pending, id);
      } else {
        AdmitFromAttached(demand[1..], host, attached, pending + [demand[0]], id);
      }
    }
  }

  lemma HostedHead(demand: seq<RelayDemand>, host: Hosting, id: SubscriptionId)
    requires demand != []
    ensures HostedBy(demand, host, id)
            == (if host(demand[0]) == Some(id) then {demand[0].id} else {}) + HostedBy(demand[1..], host, id)
  {
    forall x | x in HostedBy(demand, host, id)
      ensures x in HostedBy(demand[1..], host, id) || (host(demand[0]) == Some(id) && x == demand[0].id)
    {
      var m :| m in demand && host(m) == Some(id) && m.id == x;
      assert m == demand[0] || m in demand[1..];
    }
  }

  lemma AttachMeaning(demand: seq<RelayDemand>, installed: Installed)
    ensures AdmitFrom(demand, Hosts(installed), map[], []).0 == Attach(demand, installed)
  {
    var attached := AdmitFrom(demand, Hosts(installed), map[], []).0;
    forall id: SubscriptionId
      ensures id in attached <==> id in installed && Hosted(demand, installed, id) != {}
      ensures id in attached ==> attached[id] == Hosted(demand, installed, id)
    {
      AdmitFromAttached(demand, Hosts(installed), map[], [], id);
      HostedInstalled(demand, installed, id);
      HostedByHosts(demand, installed, id);
    }
  }

  lemma HostedByHosts(demand: seq<RelayDemand>, installed: Installed, id: SubscriptionId)
    ensures HostedBy(demand, Hosts(installed), id) == Hosted(demand, installed, id)
  {
  }

  lemma HostedInstalled(demand: seq<RelayDemand>, installed: Installed, id: SubscriptionId)
    ensures Hosted(demand, installed, id) != {} ==> id in installed
  {
    if x :| x in Hosted(demand, installed, id) {
      var d :| d in demand && HostFor(d, installed) == Some(id) && d.id == x;
      HostForMeaning(d, installed);
    }
  }

  function OwnersFrom(ids: seq<SubscriptionId>, requested: set<DemandId>, installed: Installed, attached: Owners,
                      owners: Owners): Owners
    requires forall id :: id in ids ==> id in installed
    decreases |ids|
  {
    if ids == [] then owners
    else
      var still := installed[ids[0]].serves * requested + Joined(attached, ids[0]);
      OwnersFrom(ids[1..], requested, installed, attached, if still != {} then owners[ids[0] := still] else owners)
  }

  lemma {:induction false} OwnersFromMeaning(ids: seq<SubscriptionId>, requested: set<DemandId>, installed: Installed,
                                             attached: Owners, owners: Owners, id: SubscriptionId)
    requires forall i :: i in ids ==> i in installed
    ensures var r := OwnersFrom(ids, requested, installed, attached, owners);
            if id in ids && installed[id].serves * requested + Joined(attached, id) != {}
            then id in r && r[id] == installed[id].serves * requested + Joined(attached, id)
            else (id in r <==> id in owners) && (id in owners ==> r[id] == owners[id])
    decreases |ids|
  {
    if ids != [] {
      var still := installed[ids[0]].serves * requested + Joined(attached, ids[0]);
      OwnersFromMeaning(ids[1..], requested, installed, attached,
                        if still != {} then owners[ids[0] := still] else owners, id);
    }
  }

  /** The running subscriptions that keep an owner. */
  method CountOwners(demand: seq<RelayDemand>, installed: Installed, attached: Owners) returns (owners: Owners)
    ensures owners == SurvivingOwners(demand, installed, attached)
  {
    var requested := Ids(demand);
    var ids := Ascending(installed.Keys);
    owners := map[];
    var i := 0;
    while i < |ids|
      invariant i <= |ids|
      invariant OwnersFrom(ids[i..], requested, installed, attached, owners)
                == OwnersFrom(ids, requested, installed, attached, map[])
    {
      assert ids[i] in ids && ids[i..][1..] == ids[i + 1..];
      var still := installed[ids[i]].serves * requested + Joined(attached, ids[i]);
      if still != {} {
        owners := owners[ids[i] := still];
      }
      i := i + 1;
    }
    OwnersFromAll(demand, installed, attached);
  }

  lemma OwnersFromAll(demand: seq<RelayDemand>, installed: Installed, attached: Owners)
    ensures OwnersFrom(Ascending(installed.Keys), Ids(demand), installed, attached, map[])
            == SurvivingOwners(demand, installed, attached)
  {
    var owners := OwnersFrom(Ascending(installed.Keys), Ids(demand), installed, attached, map[]);
    forall id: SubscriptionId
      ensures id in owners <==> id in installed && Still(demand, installed, attached, id) != {}
      ensures id in owners ==> owners[id] == Still(demand, installed, attached, id)
    {
      OwnersFromMeaning(Ascending(installed.Keys), Ids(demand), installed, attached, map[], id);
    }
  }

  /** What is folded so far and what the rest folds to make up the whole. */
  ghost predicate Folding(rest: seq<Candidate>, installed: Installed, kept: seq<Candidate>, attached: Owners,
                          whole: (seq<Candidate>, Owners)) {
    var later := FoldIntoRunning(rest, installed, attached);
    (kept + later.0, later.1) == whole
  }

  lemma FoldTwin(c: Candidate, rest: seq<Candidate>, installed: Installed, kept: seq<Candidate>, attached: Owners,
                 whole: (seq<Candidate>, Owners),
                 twin: SubscriptionId)
    requires Folding([c] + rest, installed, kept, attached, whole) && RunningTwin(c, installed) == Some(twin)
    ensures Folding(rest, installed, kept, attached[twin := Joined(attached, twin) + Ids(c.members)], whole)
  {
    assert ([c] + rest)[0] == c && ([c] + rest)[1..] == rest;
  }

  lemma FoldKept(c: Candidate, rest: seq<Candidate>, installed: Installed, kept: seq<Candidate>, attached: Owners,
                 whole: (seq<Candidate>, Owners))
    requires Folding([c] + rest, installed, kept, attached, whole) && RunningTwin(c, installed).None?
    ensures Folding(rest, installed, kept + [c], attached, whole)
  {
    assert ([c] + rest)[0] == c && ([c] + rest)[1..] == rest;
    var later := FoldIntoRunning(rest, installed, attached).0;
    assert kept + ([c] + later) == kept + [c] + later;
  }

  method JoinRunning(candidates: seq<Candidate>, installed: Installed, already: Owners)
    returns (kept: seq<Candidate>, attached: Owners)
    ensures kept == FoldIntoRunning(candidates, installed, already).0
    ensures attached == FoldIntoRunning(candidates, installed, already).1
  {
    kept, attached := [], already;
    ghost var whole := FoldIntoRunning(candidates, installed, already);
    assert candidates[0..] == candidates && [] + whole.0 == whole.0;
    for i := 0 to |candidates|
      invariant Folding(candidates[i..], installed, kept, attached, whole)
    {
      var c := candidates[i];
      var twin := RunningTwin(c, installed);
      assert candidates[i..] == [c] + candidates[i + 1..];
      if twin.Some? {
        FoldTwin(c, candidates[i + 1..], installed, kept, attached, whole, twin.value);
        attached := attached[twin.value := Joined(attached, twin.value) + Ids(c.members)];
      } else {
        FoldKept(c, candidates[i + 1..], installed, kept, attached, whole);
        kept := kept + [c];
      }
    }
    assert candidates[|candidates|..] == [] && kept + [] == kept;
  }

  method ReportIds(ids: seq<DemandId>, required: nat, maximum: nat) returns (short: seq<Shortfall>)
    ensures short == ExhaustedBy(ids, required, maximum)
  {
    short := [];
    for k := 0 to |ids|
      invariant short == ExhaustedBy(ids[..k], required, maximum)
    {
      short := short + [Shortfall(ids[k], SubscriptionsExhausted(required, maximum))];
    }
    assert ids[..|ids|] == ids;
  }

  lemma ExhaustOne(c: Candidate, rest: seq<Candidate>, required: nat, maximum: nat)
    ensures Exhausted([c] + rest, required, maximum)
            == ExhaustedBy(AscendingIds(Ids(c.members)), required, maximum) + Exhausted(rest, required, maximum)
  {
    assert ([c] + rest)[1..] == rest;
  }

  /** Reports what the residual budget drops. */
  method ReportDropped(dropped: seq<Candidate>, required: nat, maximum: nat) returns (short: seq<Shortfall>)
    ensures short == Exhausted(dropped, required, maximum)
  {
    short := [];
    var i := 0;
    while i < |dropped|
      invariant i <= |dropped|
      invariant short + Exhausted(dropped[i..], required, maximum) == Exhausted(dropped, required, maximum)
    {
      var reported := ReportIds(AscendingIds(Ids(dropped[i].members)), required, maximum);
      assert dropped[i..] == [dropped[i]] + dropped[i + 1..];
      ExhaustOne(dropped[i], dropped[i + 1..], required, maximum);
      assert short + (reported + Exhausted(dropped[i + 1..], required, maximum))
             == short + reported + Exhausted(dropped[i + 1..], required, maximum);
      short := short + reported;
      i := i + 1;
    }
  }

  method AdmitFilterLimits(demand: seq<RelayDemand>, constraints: Constraints)
    returns (admissible: seq<RelayDemand>, short: seq<Shortfall>)
    ensures admissible == Admissible(demand, constraints) && short == LimitShortfalls(demand, constraints)
  {
    admissible, short := [], [];
    var i := 0;
    while i < |demand|
      invariant i <= |demand|
      invariant admissible + Admissible(demand[i..], constraints) == Admissible(demand, constraints)
      invariant short + LimitShortfalls(demand[i..], constraints) == LimitShortfalls(demand, constraints)
    {
      var d := demand[i];
      assert demand[i..][1..] == demand[i + 1..];
      if OverLimit(d, constraints) {
        short := short + [Shortfall(d.id, FilterLimitExceeded(d.filter.limit.value, constraints.maxFilterLimit.value))];
      } else {
        admissible := admissible + [d];
      }
      i := i + 1;
    }
  }

  method RefuseDuplicates(demand: seq<RelayDemand>) returns (duplicate: Option<DemandId>)
    ensures duplicate == FirstDuplicate(demand, {})
    ensures duplicate.None? <==> DistinctIds(demand)
  {
    FirstDuplicateMeaning(demand, {});
    var seen: set<DemandId> := {};
    var i := 0;
    while i < |demand|
      invariant i <= |demand|
      invariant FirstDuplicate(demand[i..], seen) == FirstDuplicate(demand, {})
    {
      if demand[i].id in seen {
        return Some(demand[i].id);
      }
      assert demand[i..][1..] == demand[i + 1..];
      seen := seen + {demand[i].id};
      i := i + 1;
    }
    return None;
  }

  /** Groups pending demand, splits it to fit and folds what the splits made identical. */
  method CarryPending(w: Wire, pending: seq<RelayDemand>, constraints: Constraints)
    returns (fitted: Fitted, folded: seq<Candidate>)
    requires SizeGrows(w)
    ensures Regroups(w, StandardGrouper(w, constraints))
    ensures fitted == FitMessageBound(w, StandardGrouper(w, constraints), StandardGrouper(w, constraints)(pending),
                                      constraints)
    ensures folded == JoinAll([], fitted.carried)
  {
    var grouped := GroupDemand(w, pending, constraints);
    var carried, refused := SplitToFit(w, grouped, constraints);
    fitted := Fitted(carried, refused);
    folded := FoldIdentical(carried);
  }

  /** Every stage of one planning call. */
  method ComputeStages(w: Wire, constraints: Constraints, installed: Installed, admissible: seq<RelayDemand>)
    returns (s: Stages)
    requires SizeGrows(w)
    ensures s == StageOf(w, constraints, installed, admissible, Pending(admissible, installed))
  {
    var attached, pending := AdmitDemand(admissible, installed);
    var fitted, folded := CarryPending(w, pending, constraints);
    var kept, joined := JoinRunning(folded, installed, attached);
    var owners := CountOwners(admissible, installed, joined);
    s := Stages(admissible, pending, fitted, folded, kept, owners, Residual(constraints, |owners|, |kept|));
  }

  /** Reports every demand the stages set aside. */
  method ReportShort(w: Wire, constraints: Constraints, limited: seq<Shortfall>, s: Stages,
                     ghost demand: seq<RelayDemand>)
    returns (short: seq<Shortfall>)
    requires s.openCount <= |s.kept| && RefusedSingly(s, constraints) && limited == LimitShortfalls(demand, constraints)
    ensures short == Shortfalls(w, s, demand, constraints)
  {
    var dropped: seq<Shortfall> := [];
    if constraints.maxSubscriptions.Some? {
      dropped := ReportDropped(s.kept[s.openCount..], |s.owners| + |s.kept|, constraints.maxSubscriptions.value);
    }
    assert dropped == ResidualShortfalls(s, constraints);
    short := limited + TooLarge(w, s.fitted.refused, constraints) + dropped;
  }

  /** The standard planner, as it runs. */
  method PlanSession(w: Wire, relay: RelayUrl, demand: seq<RelayDemand>, constraints: Constraints, installed: Installed,
                     revision: nat)
    returns (answer: Result<Plan, PlanError>)
    requires SizeGrows(w)
    ensures answer == StandardPlan(w, relay, demand, constraints, installed, revision)
  {
    var duplicate := RefuseDuplicates(demand);
    if duplicate.Some? {
      return Err(DuplicateDemand(duplicate.value));
    }
    var admissible, limited := AdmitFilterLimits(demand, constraints);
    var s := ComputeStages(w, constraints, installed, admissible);
    PlanOfStages(w, relay, demand, constraints, installed, revision);
    var short := ReportShort(w, constraints, limited, s, demand);
    answer := Ok(Assemble(relay, revision, Opened(w, s.kept[..s.openCount], constraints), constraints, installed,
                          s.owners, short));
  }

  // ----- The reference planner -----

  /** Gives every pending demand a request, within the residual budget. */
  method AdmitPending(w: Wire, pending: seq<RelayDemand>, constraints: Constraints, running: nat, required: nat,
                      start: Admission)
    returns (a: Admission)
    ensures a == AdmitAll(w, pending, constraints, running, required, start)
  {
    a := start;
    var i := 0;
    while i < |pending|
      invariant i <= |pending|
      invariant AdmitAll(w, pending[i..], constraints, running, required, a)
                == AdmitAll(w, pending, constraints, running, required, start)
    {
      assert pending[i..][1..] == pending[i + 1..];
      a := AdmitOne(w, pending[i], constraints, running, required, a);
      i := i + 1;
    }
  }

  // ----- Delivery -----

  /** Which demand one event reaches under a plan, after local refiltering. */
  method Deliver(plan: Plan, demand: seq<RelayDemand>, e: Event) returns (reached: set<DemandId>)
    ensures reached == DeliveredTo(plan, demand, e)
  {
    reached := {};
    for i := 0 to |demand|
      invariant reached == DeliveredTo(plan, demand[..i], e)
    {
      assert demand[..i + 1] == demand[..i] + [demand[i]];
      if Matches(demand[i].filter, e) && Reaches(plan, demand[i].id, e) {
        reached := reached + {demand[i].id};
      }
    }
    assert demand[..|demand|] == demand;
  }

  // ----- The session slot -----

  /** The demand newly joins a running request whose stored replay already ended. */
  predicate JoinsSettled(installed: Installed, settled: map<SubscriptionId, bool>, d: RelayDemand) {
    var host := HostFor(d, installed);
    host.Some? && !Serves(installed, host.value, d.id) && host.value in settled && settled[host.value]
  }

  function Credited(installed: Installed, settled: map<SubscriptionId, bool>, demand: seq<RelayDemand>): seq<DemandId>
    decreases |demand|
  {
    if demand == [] then []
    else (if JoinsSettled(installed, settled, demand[0]) then [demand[0].id] else [])
         + Credited(AttachOne(installed, demand[0]), settled, demand[1..])
  }

  /** What is bound so far and what the rest of the demand binds make up the whole. */
  ghost predicate Binding(installed: Installed, settled: map<SubscriptionId, bool>, rest: seq<RelayDemand>,
                          credited: seq<DemandId>,
                          wholeInstalled: Installed, wholeCredited: seq<DemandId>) {
    AttachOwners(installed, rest) == wholeInstalled && credited + Credited(installed, settled, rest) == wholeCredited
  }

  lemma BindOne(installed: Installed, settled: map<SubscriptionId, bool>, item: RelayDemand, rest: seq<RelayDemand>,
                credited: seq<DemandId>,
                wholeInstalled: Installed, wholeCredited: seq<DemandId>)
    requires Binding(installed, settled, [item] + rest, credited, wholeInstalled, wholeCredited)
    ensures Binding(AttachOne(installed, item), settled, rest,
                    if JoinsSettled(installed, settled, item) then credited + [item.id] else credited,
                    wholeInstalled, wholeCredited)
  {
    assert ([item] + rest)[1..] == rest;
    var later := Credited(AttachOne(installed, item), settled, rest);
    assert credited + ([item.id] + later) == credited + [item.id] + later
           && credited + ([] + later) == credited + later;
  }

  lemma NothingLeftToBind(installed: Installed, settled: map<SubscriptionId, bool>)
    ensures AttachOwners(installed, []) == installed && Credited(installed, settled, []) == []
  {
  }

  type Entry = (SubscriptionId, InstalledSubscription)

  /** A baseline from its entries; a later entry for an id replaces an earlier one. */
  function FromEntries(entries: seq<Entry>): Installed {
    if entries == [] then map[]
    else
      var last := entries[|entries| - 1];
      FromEntries(entries[..|entries| - 1])[last.0 := last.1]
  }

  lemma OneMoreEntry(entries: seq<Entry>, e: Entry)
    ensures FromEntries(entries + [e]) == FromEntries(entries)[e.0 := e.1]
  {
    assert (entries + [e])[..|entries|] == entries;
  }

  /** The next baseline, from what the plan retains and then from what the session named. */
  method AcceptPlan(baseline: Installed, plan: Plan, minted: seq<Option<SubscriptionId>>, closed: set<SubscriptionId>)
    returns (next: Installed)
    ensures next == Accepted(baseline, plan, minted, closed)
  {
    var entries := RetainEntries(baseline, plan, closed);
    entries := NameEntries(entries, plan.open, minted);
    next := FromEntries(entries);
  }

  function RetainedAmong(ids: set<SubscriptionId>, baseline: Installed, plan: Plan,
                         closed: set<SubscriptionId>): Installed {
    map id | id in ids && id in baseline && id !in closed && id in plan.attribution ::
      InstalledSubscription(baseline[id].filters, plan.attribution[id].serves)
  }

  method RetainEntries(baseline: Installed, plan: Plan, closed: set<SubscriptionId>) returns (entries: seq<Entry>)
    ensures FromEntries(entries) == RetainedAmong(baseline.Keys, baseline, plan, closed)
  {
    entries := [];
    var ids := Ascending(baseline.Keys);
    for i := 0 to |ids|
      invariant FromEntries(entries) == RetainedAmong(Elements(ids[..i]), baseline, plan, closed)
    {
      var id := ids[i];
      assert ids[..i + 1] == ids[..i] + [id] && id in ids;
      if id !in closed && id in plan.attribution {
        var e := (id, InstalledSubscription(baseline[id].filters, plan.attribution[id].serves));
        OneMoreEntry(entries, e);
        entries := entries + [e];
      }
    }
    assert ids[..|ids|] == ids && Elements(ids) == baseline.Keys;
  }

  /** What is entered so far and what the rest of the names add make up the whole. */
  ghost predicate Naming(soFar: Installed, open: seq<Attributed>, minted: seq<Option<SubscriptionId>>,
                         whole: Installed) {
    soFar + Session.Named(open, minted) == whole
  }

  lemma NameOne(soFar: Installed, open: seq<Attributed>, minted: seq<Option<SubscriptionId>>, whole: Installed)
    requires Naming(soFar, open, minted, whole) && open != [] && minted != []
    ensures var named := if minted[0].Some?
                         then soFar[minted[0].value := InstalledSubscription(open[0].filters, open[0].serves)]
                         else soFar;
            Naming(named, open[1..], minted[1..], whole)
  {
    var rest := Session.Named(open[1..], minted[1..]);
    if minted[0].Some? {
      var first := map[minted[0].value := InstalledSubscription(open[0].filters, open[0].serves)];
      assert soFar + (first + rest) == soFar[minted[0].value := first[minted[0].value]] + rest;
    }
  }

  method NameEntries(retained: seq<Entry>, open: seq<Attributed>, minted: seq<Option<SubscriptionId>>)
    returns (entries: seq<Entry>)
    ensures FromEntries(entries) == FromEntries(retained) + Session.Named(open, minted)
  {
    hide FromEntries;
    entries := retained;
    ghost var whole := FromEntries(retained) + Session.Named(open, minted);
    var position := 0;
    while position < |open| && position < |minted|
      invariant position <= |open| && position <= |minted|
      invariant Naming(FromEntries(entries), open[position..], minted[position..], whole)
    {
      NameOne(FromEntries(entries), open[position..], minted[position..], whole);
      assert open[position..][1..] == open[position + 1..] && minted[position..][1..] == minted[position + 1..];
      if minted[position].Some? {
        var e := (minted[position].value, InstalledSubscription(open[position].filters, open[position].serves));
        OneMoreEntry(entries, e);
        entries := entries + [e];
      }
      position := position + 1;
    }
  }

  /** One relay session's owned baseline, and which of its requests have replayed their stored events. */
  class Slot {
    var installed: Installed
    var settled: map<SubscriptionId, bool>
    var completeness: map<SubscriptionId, Completeness>

    constructor ()
      ensures installed == map[] && settled == map[] && completeness == map[]
    {
      installed, settled, completeness := map[], map[], map[];
    }

    /** Binds demand running requests already carry; a joiner of a settled request is credited at once. */
    method AttachTo(demand: seq<RelayDemand>) returns (credited: seq<DemandId>)
      modifies this`installed
      ensures installed == AttachOwners(old(installed), demand)
      ensures credited == Credited(old(installed), settled, demand)
    {
      hide AttachOwners, AttachOne, Credited, JoinsSettled;
      credited := [];
      ghost var wholeInstalled, wholeCredited := AttachOwners(installed, demand), Credited(installed, settled, demand);
      var i := 0;
      while i < |demand|
        invariant i <= |demand| && Binding(installed, settled, demand[i..], credited, wholeInstalled, wholeCredited)
      {
        var item := demand[i];
        assert demand[i..] == [item] + demand[i + 1..];
        BindOne(installed, settled, item, demand[i + 1..], credited, wholeInstalled, wholeCredited);
        if JoinsSettled(installed, settled, item) {
          credited := credited + [item.id];
        }
        installed := AttachOne(installed, item);
        i := i + 1;
      }
      assert demand[i..] == [];
      NothingLeftToBind(installed, settled);
    }

    /** Replaces the baseline with exactly what the transport accepted, and forgets what is
        gone: what goes on running keeps its filters and its settlement, and a request under
        a name never settled before starts unsettled. */
    method RecordInstalled(plan: Plan, minted: seq<Option<SubscriptionId>>, closed: set<SubscriptionId>)
      modifies this
      ensures installed == Accepted(old(installed), plan, minted, closed)
      ensures settled.Keys <= installed.Keys && completeness.Keys <= installed.Keys
      ensures forall id :: id in installed && id !in MintedIds(minted) ==>
                && id in old(installed) && id !in closed && installed[id].filters == old(installed)[id].filters
                && (id in old(settled) <==> id in settled) && (id in settled ==> settled[id] == old(settled)[id])
                && (id in old(completeness) <==> id in completeness)
                && (id in completeness ==> completeness[id] == old(completeness)[id])
      ensures MintedIds(minted) !! old(settled.Keys + completeness.Keys) ==>
                MintedIds(minted) !! settled.Keys + completeness.Keys
    {
      NamedKeys(plan.open, minted);
      installed := AcceptPlan(installed, plan, minted, closed);
      settled := map id | id in settled && id in installed :: settled[id];
      completeness := map id | id in completeness && id in installed :: completeness[id];
    }
  }
}
