/** The standard planner: demand, declared limits and what is running, answered with a diff. */
module Planner {
  import opened Prelude
  import opened Orders
  import opened Events
  import opened Filters
  import opened Demand
  import opened Grouping

  datatype ShortfallReason =
    | SubscriptionsExhausted(required: nat, maximum: nat)
    | MessageTooLarge(bytes: nat, maximum: nat)
    | FilterLimitExceeded(required: nat, maximum: nat)

  datatype Shortfall = Shortfall(demand: DemandId, reason: ShortfallReason)

  /** What an EOSE on one subscription proves. */
  datatype Completeness = Proven | LimitedRequest | RelayDefaultLimit

  /** A subscription with the demand it serves; the planned and the attributed record share this shape. */
  datatype Attributed = Attributed(filters: seq<Filter>, serves: set<DemandId>, completeness: Completeness)

  datatype InstalledSubscription = InstalledSubscription(filters: seq<Filter>, serves: set<DemandId>)

  /** What is live on the relay session. */
  type Installed = map<SubscriptionId, InstalledSubscription>

  type Owners = map<SubscriptionId, set<DemandId>>

  datatype Plan = Plan(
    relay: RelayUrl,
    revision: nat,
    open: seq<Attributed>,
    retain: seq<SubscriptionId>,
    close: seq<SubscriptionId>,
    attribution: map<SubscriptionId, Attributed>,
    shortfalls: seq<Shortfall>)

  datatype PlanError = DuplicateDemand(id: DemandId)

  function CompletenessOf(filters: seq<Filter>, constraints: Constraints): Completeness {
    if exists f :: f in filters && f.limit.Some? then LimitedRequest
    else if constraints.defaultFilterLimit.Some? then RelayDefaultLimit
    else Proven
  }

  // ----- Refusing duplicates and over-limit demand -----

  /** The first identity that repeats an earlier one. */
  function FirstDuplicate(demand: seq<RelayDemand>, seen: set<DemandId>): Option<DemandId> {
    if demand == [] then None
    else if demand[0].id in seen then Some(demand[0].id)
    else FirstDuplicate(demand[1..], seen + {demand[0].id})
  }

  predicate OverLimit(d: RelayDemand, constraints: Constraints) {
    && constraints.maxFilterLimit.Some?
    && d.filter.limit.Some?
    && d.filter.limit.value > constraints.maxFilterLimit.value
  }

  function Admissible(demand: seq<RelayDemand>, constraints: Constraints): seq<RelayDemand> {
    if demand == [] then []
    else (if OverLimit(demand[0], constraints) then [] else [demand[0]]) + Admissible(demand[1..], constraints)
  }

  function LimitShortfalls(demand: seq<RelayDemand>, constraints: Constraints): seq<Shortfall> {
    if demand == [] then []
    else
      (if OverLimit(demand[0], constraints)
       then [Shortfall(demand[0].id,
                       FilterLimitExceeded(demand[0].filter.limit.value, constraints.maxFilterLimit.value))]
       else [])
      + LimitShortfalls(demand[1..], constraints)
  }

  // ----- Attaching to what is running -----

  function FirstId(ids: seq<SubscriptionId>, p: SubscriptionId -> bool): Option<SubscriptionId> {
    if ids == [] then None else if p(ids[0]) then Some(ids[0]) else FirstId(ids[1..], p)
  }

  lemma {:induction false} FirstIdMeaning(ids: seq<SubscriptionId>, p: SubscriptionId -> bool)
    ensures var r := FirstId(ids, p);
            && (r.Some? ==> r.value in ids && p(r.value))
            && (r.None? ==> forall id :: id in ids ==> !p(id))
  {
    if ids != [] {
      FirstIdMeaning(ids[1..], p);
    }
  }

  predicate Serves(installed: Installed, id: SubscriptionId, d: DemandId) {
    id in installed && d in installed[id].serves
  }

  predicate Contains(installed: Installed, id: SubscriptionId, f: Filter) {
    id in installed && exists g :: g in installed[id].filters && Covers(g, f)
  }

  /** Scans running ids in order: an owner wins outright, otherwise the first that contains the demand. */
  function HostAmong(d: RelayDemand, ids: seq<SubscriptionId>, installed: Installed,
                     covering: Option<SubscriptionId>): Option<SubscriptionId>
    decreases |ids|
  {
    if ids == [] then covering
    else if Serves(installed, ids[0], d.id) then Some(ids[0])
    else HostAmong(d, ids[1..], installed,
                   if covering.None? && Contains(installed, ids[0], d.filter) then Some(ids[0]) else covering)
  }

  /** The running subscription that already serves this demand, if any. */
  function HostFor(d: RelayDemand, installed: Installed): Option<SubscriptionId> {
    HostAmong(d, Ascending(installed.Keys), installed, None)
  }

  lemma {:induction false} HostAmongMeaning(d: RelayDemand, ids: seq<SubscriptionId>, installed: Installed,
                                            covering: Option<SubscriptionId>)
    ensures var r := HostAmong(d, ids, installed, covering);
            && (r.None? <==>
                  && covering.None?
                  && forall id :: id in ids ==> !Serves(installed, id, d.id) && !Contains(installed, id, d.filter))
            && (r.Some? ==> r == covering || r.value in ids)
            && (r.Some? && !Serves(installed, r.value, d.id) ==>
                  && (r == covering || Contains(installed, r.value, d.filter))
                  && (forall id :: id in ids ==> !Serves(installed, id, d.id)))
    decreases |ids|
  {
    if ids != [] && !Serves(installed, ids[0], d.id) {
      HostAmongMeaning(d, ids[1..], installed,
                       if covering.None? && Contains(installed, ids[0], d.filter) then Some(ids[0]) else covering);
    }
  }

  /** A demand has a host exactly when something running serves or contains it, and an owner is preferred. */
  lemma HostForMeaning(d: RelayDemand, installed: Installed)
    ensures var r := HostFor(d, installed);
            && (r.None? <==> forall id :: id in installed ==>
                                            !Serves(installed, id, d.id) && !Contains(installed, id, d.filter))
            && (r.Some? ==> r.value in installed)
            && (r.Some? && !Serves(installed, r.value, d.id) ==>
                  && Contains(installed, r.value, d.filter)
                  && (forall id :: id in installed ==> !Serves(installed, id, d.id)))
  {
    HostAmongMeaning(d, Ascending(installed.Keys), installed, None);
  }

  function Hosted(demand: seq<RelayDemand>, installed: Installed, id: SubscriptionId): set<DemandId> {
    set d | d in demand && HostFor(d, installed) == Some(id) :: d.id
  }

  /** The demand each running subscription additionally serves. */
  function Attach(demand: seq<RelayDemand>, installed: Installed): Owners {
    map id | id in installed && Hosted(demand, installed, id) != {} :: Hosted(demand, installed, id)
  }

  function Pending(demand: seq<RelayDemand>, installed: Installed): seq<RelayDemand> {
    if demand == [] then []
    else (if HostFor(demand[0], installed).None? then [demand[0]] else []) + Pending(demand[1..], installed)
  }

  function Joined(attached: Owners, id: SubscriptionId): set<DemandId> {
    if id in attached then attached[id] else {}
  }

  function Still(demand: seq<RelayDemand>, installed: Installed, attached: Owners, id: SubscriptionId): set<DemandId>
    requires id in installed
  {
    installed[id].serves * Ids(demand) + Joined(attached, id)
  }

  /** Which running subscriptions keep at least one logical owner, and who they are. */
  function SurvivingOwners(demand: seq<RelayDemand>, installed: Installed, attached: Owners): Owners {
    map id | id in installed && Still(demand, installed, attached, id) != {} :: Still(demand, installed, attached, id)
  }

  // ----- Fitting the declared message bound -----

  datatype Fitted = Fitted(carried: seq<Candidate>, refused: seq<Candidate>)

  predicate Fits(w: Wire, f: Filter, constraints: Constraints) {
    constraints.maxMessageBytes.None? || w.size(f) <= constraints.maxMessageBytes.value
  }

  ghost function Weight(queue: seq<Candidate>): nat {
    if queue == [] then 0
    else (if queue[0].members == [] then 0 else 2 * |queue[0].members| - 1) + Weight(queue[1..])
  }

  lemma {:induction false} WeightSplit(a: seq<Candidate>, b: seq<Candidate>)
    ensures Weight(a + b) == Weight(a) + Weight(b)
  {
    if a == [] {
      assert a + b == b;
    } else {
      assert (a + b)[1..] == a[1..] + b;
      WeightSplit(a[1..], b);
    }
  }

  /** Taking a candidate off the queue never adds work. */
  lemma PopShrinks(c: Candidate, rest: seq<Candidate>)
    ensures Weight(rest) <= Weight([c] + rest)
  {
    assert ([c] + rest)[1..] == rest;
  }

  lemma {:induction false} WeightOfSound(w: Wire, candidates: seq<Candidate>)
    requires AllSound(w, candidates)
    ensures Weight(candidates) == 2 * |Load(candidates)| - |candidates|
  {
    if candidates != [] {
      WeightOfSound(w, candidates[1..]);
    }
  }

  /** A grouping policy: a partition of any demand into sound candidates. */
  type Grouper = seq<RelayDemand> -> seq<Candidate>

  ghost predicate Regroups(w: Wire, group: Grouper) {
    forall demand :: AllSound(w, group(demand)) && Load(group(demand)) == multiset(demand)
  }

  /** The standard grouping under one relay's declaration. */
  function StandardGrouper(w: Wire, constraints: Constraints): Grouper {
    (demand: seq<RelayDemand>) => Group(w, demand, constraints)
  }

  lemma StandardRegroups(w: Wire, constraints: Constraints)
    requires SizeGrows(w)
    ensures Regroups(w, StandardGrouper(w, constraints))
  {
    forall demand
      ensures AllSound(w, StandardGrouper(w, constraints)(demand))
              && Load(StandardGrouper(w, constraints)(demand)) == multiset(demand)
    {
      GroupPartitions(w, demand, constraints);
    }
  }

  lemma GroupWeight(w: Wire, group: Grouper, demand: seq<RelayDemand>)
    requires Regroups(w, group) && demand != []
    ensures Weight(group(demand)) < 2 * |demand|
  {
    WeightOfSound(w, group(demand));
    assert |multiset(demand)| == |demand|;
    assert Load([]) == multiset{};
  }

  /** The halves of one candidate, each grouped again. */
  function Halves(group: Grouper, c: Candidate): seq<Candidate> {
    var middle := (|c.members| + 1) / 2;
    group(c.members[..middle]) + group(c.members[middle..])
  }

  lemma HalvesWeight(w: Wire, group: Grouper, c: Candidate)
    requires Regroups(w, group) && |c.members| >= 2
    ensures Weight(Halves(group, c)) < 2 * |c.members| - 1
  {
    hide Weight, Regroups;
    var middle := (|c.members| + 1) / 2;
    GroupWeight(w, group, c.members[..middle]);
    GroupWeight(w, group, c.members[middle..]);
    WeightSplit(group(c.members[..middle]), group(c.members[middle..]));
  }

  /** Halving a candidate and regrouping each half leaves strictly less to do. */
  lemma SplitShrinks(w: Wire, group: Grouper, c: Candidate, rest: seq<Candidate>)
    requires Regroups(w, group) && |c.members| >= 2
    ensures Weight(rest + Halves(group, c)) < Weight([c] + rest)
  {
    HalvesWeight(w, group, c);
    WeightSplit(rest, Halves(group, c));
    WeightSplit([c], rest);
    assert Weight([c]) == 2 * |c.members| - 1;
  }

  /** Splits every candidate until its exact REQ fits. A single demand that does
      not fit on its own is refused. */
  function FitMessageBound(w: Wire, group: Grouper, queue: seq<Candidate>, constraints: Constraints): Fitted
    requires Regroups(w, group)
    decreases Weight(queue), |queue|
  {
    if queue == [] then Fitted([], [])
    else
      var c, rest := queue[0], queue[1..];
      assert queue == [c] + rest;
      if c.members == [] then FitMessageBound(w, group, rest, constraints)
      else if Fits(w, c.filter, constraints) then
        var later := FitMessageBound(w, group, rest, constraints);
        Fitted([c] + later.carried, later.refused)
      else if |c.members| == 1 then
        var later := FitMessageBound(w, group, rest, constraints);
        Fitted(later.carried, [c] + later.refused)
      else
        SplitShrinks(w, group, c, rest);
        FitMessageBound(w, group, rest + Halves(group, c), constraints)
  }

  function TooLarge(w: Wire, refused: seq<Candidate>, constraints: Constraints): seq<Shortfall>
    requires constraints.maxMessageBytes.Some? || refused == []
    requires forall c :: c in refused ==> c.members != []
  {
    seq(|refused|, i requires 0 <= i < |refused| =>
      Shortfall(refused[i].members[0].id,
                MessageTooLarge(w.size(refused[i].filter), constraints.maxMessageBytes.value)))
  }

  // ----- Folding into what runs, and the residual budget -----

  /** A running subscription already carrying exactly this candidate's filter. */
  function RunningTwin(c: Candidate, installed: Installed): Option<SubscriptionId> {
    FirstId(Ascending(installed.Keys), Carrying(c.filter, installed))
  }

  function Carrying(f: Filter, installed: Installed): SubscriptionId -> bool {
    (id: SubscriptionId) => id in installed && installed[id].filters == [f]
  }

  lemma TwinMeaning(c: Candidate, installed: Installed)
    ensures var r := RunningTwin(c, installed);
            && (r.Some? ==> r.value in installed && installed[r.value].filters == [c.filter])
            && (r.None? ==> forall id :: id in installed ==> installed[id].filters != [c.filter])
  {
    FirstIdMeaning(Ascending(installed.Keys), Carrying(c.filter, installed));
    assert forall id :: id in installed ==> id in Ascending(installed.Keys);
  }

  function FoldIntoRunning(candidates: seq<Candidate>, installed: Installed, attached: Owners): (seq<Candidate>, Owners)
    decreases |candidates|
  {
    if candidates == [] then ([], attached)
    else
      var twin := RunningTwin(candidates[0], installed);
      if twin.Some? then
        FoldIntoRunning(candidates[1..], installed,
                        attached[twin.value := Joined(attached, twin.value) + Ids(candidates[0].members)])
      else
        var (kept, after) := FoldIntoRunning(candidates[1..], installed, attached);
        ([candidates[0]] + kept, after)
  }

  /** How many of `count` candidates the residual budget admits. */
  function Residual(constraints: Constraints, running: nat, count: nat): (r: nat)
    ensures r <= count
  {
    if constraints.maxSubscriptions.None? then count
    else
      var residual := if constraints.maxSubscriptions.value <= running then 0
                      else constraints.maxSubscriptions.value - running;
      if count <= residual then count else residual
  }

  function IdOrder(): (DemandId, DemandId) -> bool {
    (a: DemandId, b: DemandId) => IdLeq(a, b)
  }

  lemma IdOrderTotal()
    ensures TotalOrder(IdOrder())
  {
    forall a, b | IdLeq(a, b) && IdLeq(b, a)
      ensures a == b
    {
      IdLeqAntisymmetric(a, b);
    }
  }

  /** A set of identities in ascending order. */
  function AscendingIds(ids: set<DemandId>): (r: seq<DemandId>)
    ensures forall x :: x in r <==> x in ids
  {
    IdOrderTotal();
    Enumerate(ids, IdOrder())
  }

  function ExhaustedBy(ids: seq<DemandId>, required: nat, maximum: nat): seq<Shortfall> {
    seq(|ids|, i requires 0 <= i < |ids| => Shortfall(ids[i], SubscriptionsExhausted(required, maximum)))
  }

  function Exhausted(dropped: seq<Candidate>, required: nat, maximum: nat): seq<Shortfall> {
    if dropped == [] then []
    else ExhaustedBy(AscendingIds(Ids(dropped[0].members)), required, maximum)
         + Exhausted(dropped[1..], required, maximum)
  }

  // ----- The whole plan -----

  /** The intermediate answers of one planning call. */
  datatype Stages = Stages(
    admissible: seq<RelayDemand>,
    pending: seq<RelayDemand>,
    fitted: Fitted,
    folded: seq<Candidate>,
    kept: seq<Candidate>,
    owners: Owners,
    openCount: nat)

  function StageOf(w: Wire, constraints: Constraints, installed: Installed, admissible: seq<RelayDemand>,
                   pending: seq<RelayDemand>): (s: Stages)
    requires SizeGrows(w)
    ensures s.openCount <= |s.kept|
  {
    var group := StandardGrouper(w, constraints);
    StandardRegroups(w, constraints);
    var fitted := FitMessageBound(w, group, group(pending), constraints);
    var folded := JoinAll([], fitted.carried);
    var (kept, attached) := FoldIntoRunning(folded, installed, Attach(admissible, installed));
    var owners := SurvivingOwners(admissible, installed, attached);
    Stages(admissible, pending, fitted, folded, kept, owners, Residual(constraints, |owners|, |kept|))
  }

  function Stage(w: Wire, demand: seq<RelayDemand>, constraints: Constraints, installed: Installed): (s: Stages)
    requires SizeGrows(w)
    ensures s.openCount <= |s.kept|
  {
    var admissible := Admissible(demand, constraints);
    StageOf(w, constraints, installed, admissible, Pending(admissible, installed))
  }

  function Planned(c: Candidate, constraints: Constraints): Attributed {
    Attributed([c.filter], Ids(c.members), CompletenessOf([c.filter], constraints))
  }

  function PlannedAll(candidates: seq<Candidate>, constraints: Constraints): seq<Attributed> {
    seq(|candidates|, i requires 0 <= i < |candidates| => Planned(candidates[i], constraints))
  }

  function OpenOrder(w: Wire): (Attributed, Attributed) -> bool {
    (a: Attributed, b: Attributed) => w.listBefore(a.filters, b.filters)
  }

  /** The requests to send, in filter order. */
  function Opened(w: Wire, candidates: seq<Candidate>, constraints: Constraints): seq<Attributed> {
    SortBy(PlannedAll(candidates, constraints), OpenOrder(w))
  }

  function ResidualShortfalls(s: Stages, constraints: Constraints): seq<Shortfall>
    requires s.openCount <= |s.kept|
  {
    if constraints.maxSubscriptions.None? then []
    else Exhausted(s.kept[s.openCount..], |s.owners| + |s.kept|, constraints.maxSubscriptions.value)
  }

  /** Only single demands are refused, and only under a declared message bound. */
  ghost predicate RefusedSingly(s: Stages, constraints: Constraints) {
    && (constraints.maxMessageBytes.Some? || s.fitted.refused == [])
    && forall c :: c in s.fitted.refused ==> |c.members| == 1
  }

  function Shortfalls(w: Wire, s: Stages, demand: seq<RelayDemand>, constraints: Constraints): seq<Shortfall>
    requires s.openCount <= |s.kept| && RefusedSingly(s, constraints)
  {
    LimitShortfalls(demand, constraints)
    + TooLarge(w, s.fitted.refused, constraints)
    + ResidualShortfalls(s, constraints)
  }

  function Assemble(relay: RelayUrl, revision: nat, open: seq<Attributed>, constraints: Constraints,
                    installed: Installed, owners: Owners, shortfalls: seq<Shortfall>): Plan {
    Plan(
      relay,
      revision,
      open,
      Ascending(owners.Keys * installed.Keys),
      Ascending(installed.Keys - owners.Keys),
      map id | id in owners && id in installed ::
        Attributed(installed[id].filters, owners[id], CompletenessOf(installed[id].filters, constraints)),
      shortfalls)
  }

  function StandardPlan(w: Wire, relay: RelayUrl, demand: seq<RelayDemand>, constraints: Constraints,
                        installed: Installed, revision: nat): Result<Plan, PlanError>
    requires SizeGrows(w)
  {
    var duplicate := FirstDuplicate(demand, {});
    if duplicate.Some? then Err(DuplicateDemand(duplicate.value))
    else
      var s := Stage(w, demand, constraints, installed);
      StandardRegroups(w, constraints);
      FitKeeps(w, StandardGrouper(w, constraints), StandardGrouper(w, constraints)(s.pending), constraints);
      assert s.fitted.refused != [] ==> s.fitted.refused[0] in s.fitted.refused;
      Ok(Assemble(relay, revision, Opened(w, s.kept[..s.openCount], constraints), constraints, installed,
                  s.owners, Shortfalls(w, s, demand, constraints)))
  }

  // ----- Facts about each step -----

  lemma {:induction false} FirstDuplicateMeaning(demand: seq<RelayDemand>, seen: set<DemandId>)
    ensures FirstDuplicate(demand, seen).None? <==> DistinctIds(demand) && Ids(demand) !! seen
  {
    if demand != [] {
      FirstDuplicateMeaning(demand[1..], seen + {demand[0].id});
      assert demand == [demand[0]] + demand[1..];
      assert Ids(demand) == {demand[0].id} + Ids(demand[1..]);
      if DistinctIds(demand) {
        assert forall i :: 0 <= i < |demand[1..]| ==> demand[1..][i] == demand[i + 1];
        assert DistinctIds(demand[1..]);
      }
      if DistinctIds(demand[1..]) && demand[0].id !in Ids(demand[1..]) {
        assert forall i :: 0 < i < |demand| ==> demand[i] in demand[1..];
        assert forall i :: 0 < i < |demand| ==> demand[i] == demand[1..][i - 1];
      }
    }
  }

  lemma {:induction false} AdmissibleMember(demand: seq<RelayDemand>, constraints: Constraints, d: RelayDemand)
    ensures d in Admissible(demand, constraints) <==> d in demand && !OverLimit(d, constraints)
  {
    if demand != [] {
      AdmissibleMember(demand[1..], constraints, d);
    }
  }

  lemma {:induction false} AdmissibleLoad(demand: seq<RelayDemand>, constraints: Constraints)
    ensures multiset(Admissible(demand, constraints)) <= multiset(demand)
  {
    if demand != [] {
      AdmissibleLoad(demand[1..], constraints);
      assert demand == [demand[0]] + demand[1..];
    }
  }

  lemma {:induction false} LimitShortfallMember(demand: seq<RelayDemand>, constraints: Constraints, id: DemandId)
    ensures (exists s :: s in LimitShortfalls(demand, constraints) && s.demand == id)
            <==> (exists d :: d in demand && d.id == id && OverLimit(d, constraints))
  {
    if demand != [] {
      LimitShortfallMember(demand[1..], constraints, id);
      var rest := LimitShortfalls(demand[1..], constraints);
      assert forall s :: s in rest ==> s in LimitShortfalls(demand, constraints);
      assert forall d :: d in demand ==> d == demand[0] || d in demand[1..];
      if OverLimit(demand[0], constraints) && demand[0].id == id {
        assert LimitShortfalls(demand, constraints)[0].demand == id;
      }
    }
  }

  lemma {:induction false} PendingMember(demand: seq<RelayDemand>, installed: Installed, d: RelayDemand)
    ensures d in Pending(demand, installed) <==> d in demand && HostFor(d, installed).None?
  {
    if demand != [] {
      PendingMember(demand[1..], installed, d);
    }
  }

  function Unhosted(installed: Installed): RelayDemand -> seq<RelayDemand> {
    (d: RelayDemand) => if HostFor(d, installed).None? then [d] else []
  }

  lemma {:induction false} PendingSieves(demand: seq<RelayDemand>, installed: Installed)
    ensures Pending(demand, installed) == FlatMap(demand, Unhosted(installed))
  {
    if demand != [] {
      PendingSieves(demand[1..], installed);
    }
  }

  lemma PendingLoad(demand: seq<RelayDemand>, installed: Installed)
    ensures multiset(Pending(demand, installed)) <= multiset(demand)
  {
    PendingSieves(demand, installed);
    FlatMapAtMost(demand, Unhosted(installed));
  }

  lemma SubDistinctIds(few: seq<RelayDemand>, many: seq<RelayDemand>)
    requires multiset(few) <= multiset(many) && DistinctIds(many)
    ensures DistinctIds(few)
  {
    DistinctIdsIsDistinct(many);
    DistinctMultiset(many);
    DistinctMultiset(few);
    forall i, j | 0 <= i < j < |few|
      ensures few[i].id != few[j].id
    {
      var a, b := few[i], few[j];
      assert a in multiset(few) && b in multiset(few);
      assert a in multiset(many) && b in multiset(many);
      if a.id == b.id {
        SameIdSameDemand(many, a, b);
      }
    }
  }

  /** Every demand of the load is in one candidate; carried ones fit, refused ones are single and do not. */
  ghost predicate Placed(w: Wire, constraints: Constraints, r: Fitted, load: multiset<RelayDemand>) {
    && Load(r.carried) + Load(r.refused) == load
    && AllSound(w, r.carried) && AllSound(w, r.refused)
    && (forall c :: c in r.carried ==> Fits(w, c.filter, constraints))
    && (forall c :: c in r.refused ==> |c.members| == 1 && !Fits(w, c.filter, constraints))
  }

  lemma PlaceOne(w: Wire, constraints: Constraints, r: Fitted, load: multiset<RelayDemand>, c: Candidate)
    requires Placed(w, constraints, r, load) && Sound(w, c)
    ensures Fits(w, c.filter, constraints) ==>
              Placed(w, constraints, Fitted([c] + r.carried, r.refused), multiset(c.members) + load)
    ensures !Fits(w, c.filter, constraints) && |c.members| == 1 ==>
              Placed(w, constraints, Fitted(r.carried, [c] + r.refused), multiset(c.members) + load)
  {
    SoundSplit(w, [c], r.carried);
    SoundSplit(w, [c], r.refused);
    LoadSplit([c], r.carried);
    LoadSplit([c], r.refused);
    assert Load([c]) == multiset(c.members) + Load([]);
  }

  /** The split-and-regroup loop: nothing is lost, what is carried fits, and a
      demand is refused exactly when its own request alone exceeds the bound. */
  lemma {:induction false} FitKeeps(w: Wire, group: Grouper, queue: seq<Candidate>, constraints: Constraints)
    requires Regroups(w, group) && AllSound(w, queue)
    ensures Placed(w, constraints, FitMessageBound(w, group, queue, constraints), Load(queue))
    decreases Weight(queue), |queue|
  {
    if queue != [] {
      var c, rest := queue[0], queue[1..];
      assert queue == [c] + rest;
      assert Sound(w, c);
      if Fits(w, c.filter, constraints) || |c.members| == 1 {
        FitKeeps(w, group, rest, constraints);
        PlaceOne(w, constraints, FitMessageBound(w, group, rest, constraints), Load(rest), c);
      } else {
        SplitShrinks(w, group, c, rest);
        HalvesKeep(w, group, c);
        LoadSplit(rest, Halves(group, c));
        SoundSplit(w, rest, Halves(group, c));
        FitKeeps(w, group, rest + Halves(group, c), constraints);
      }
    }
  }

  lemma HalvesKeep(w: Wire, group: Grouper, c: Candidate)
    requires Regroups(w, group)
    ensures AllSound(w, Halves(group, c)) && Load(Halves(group, c)) == multiset(c.members)
  {
    var middle := (|c.members| + 1) / 2;
    var left, right := group(c.members[..middle]), group(c.members[middle..]);
    assert AllSound(w, left + right) by {
      SoundSplit(w, left, right);
    }
    assert c.members == c.members[..middle] + c.members[middle..];
    assert multiset(c.members) == multiset(c.members[..middle]) + multiset(c.members[middle..]);
    LoadSplit(left, right);
  }

  lemma SoundSplit(w: Wire, a: seq<Candidate>, b: seq<Candidate>)
    requires AllSound(w, a) && AllSound(w, b)
    ensures AllSound(w, a + b)
  {
    forall i | 0 <= i < |a + b|
      ensures Sound(w, (a + b)[i])
    {
      assert (a + b)[i] == if i < |a| then a[i] else b[i - |a|];
    }
  }

  lemma MeasuredByCandidate(w: Wire, candidates: seq<Candidate>, constraints: Constraints, m: RelayDemand, fits: bool)
    requires AllSound(w, candidates) && m in Load(candidates)
    requires forall c :: c in candidates ==> Fits(w, c.filter, constraints) == fits && (!fits ==> |c.members| == 1)
    ensures Fits(w, m.filter, constraints) == fits
  {
    LoadMember(candidates, m);
    var i :| 0 <= i < |candidates| && m in candidates[i].members;
    assert Sound(w, candidates[i]) && candidates[i] in candidates;
  }

  /** Whether one queued demand is carried or refused depends on its own request alone. */
  lemma RefusedExactly(w: Wire, group: Grouper, queue: seq<Candidate>, constraints: Constraints, m: RelayDemand)
    requires Regroups(w, group) && AllSound(w, queue) && m in Load(queue)
    ensures m in Load(FitMessageBound(w, group, queue, constraints).refused) <==> !Fits(w, m.filter, constraints)
    ensures m in Load(FitMessageBound(w, group, queue, constraints).carried) <==> Fits(w, m.filter, constraints)
  {
    var r := FitMessageBound(w, group, queue, constraints);
    FitKeeps(w, group, queue, constraints);
    assert m in Load(r.carried) + Load(r.refused);
    if m in Load(r.carried) {
      MeasuredByCandidate(w, r.carried, constraints, m, true);
    }
    if m in Load(r.refused) {
      MeasuredByCandidate(w, r.refused, constraints, m, false);
    }
  }

  lemma NoTwin(w: Wire, c: Candidate, installed: Installed)
    requires Sound(w, c) && HostFor(c.members[0], installed).None?
    ensures RunningTwin(c, installed).None?
  {
    assert Covers(c.filter, c.members[0].filter);
    HostForMeaning(c.members[0], installed);
    TwinMeaning(c, installed);
    forall id | id in installed
      ensures installed[id].filters != [c.filter]
    {
      assert !Contains(installed, id, c.members[0].filter);
      assert c.filter !in installed[id].filters;
    }
  }

  lemma {:induction false} NoTwinsNoFold(candidates: seq<Candidate>, installed: Installed, attached: Owners)
    requires forall c :: c in candidates ==> RunningTwin(c, installed).None?
    ensures FoldIntoRunning(candidates, installed, attached) == (candidates, attached)
    decreases |candidates|
  {
    if candidates != [] {
      assert candidates[0] in candidates && candidates == [candidates[0]] + candidates[1..];
      NoTwinsNoFold(candidates[1..], installed, attached);
    }
  }

  /** No candidate recreates a running filter: demand such a filter contains attached before grouping. */
  lemma FoldIntoRunningIsIdle(w: Wire, candidates: seq<Candidate>, installed: Installed, attached: Owners)
    requires AllSound(w, candidates)
    requires forall m :: m in Load(candidates) ==> HostFor(m, installed).None?
    ensures FoldIntoRunning(candidates, installed, attached) == (candidates, attached)
  {
    forall c | c in candidates
      ensures RunningTwin(c, installed).None?
    {
      assert Sound(w, c);
      LoadMember(candidates, c.members[0]);
      NoTwin(w, c, installed);
    }
    NoTwinsNoFold(candidates, installed, attached);
  }
}
