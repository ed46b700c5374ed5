/** Installed observations: public parents, their concrete generations, and the demand they hold. */
module Registry {
  import opened Prelude
  import opened Orders
  import opened Events
  import opened EventState
  import opened Demand

  /** Observation identities are minted from a counter that starts at one. */
  type ObservationId = nat

  const MAX_COUNT: nat := 0xFFFF_FFFF_FFFF_FFFF

  datatype Withdrawal = RouteWithdrawn | ObservationClosed | Shutdown

  datatype RelayState = Planned | Progressed(stage: nat) | Withdrawn(reason: Withdrawal)

  datatype Assigned = Assigned(demand: RelayDemand, state: RelayState)

  datatype Installed = Installed(
    public: ObservationId,
    active: bool,
    activeChild: Option<ObservationId>,
    children: set<ObservationId>,
    relays: map<RelayUrl, Assigned>,
    access: Authority,
    live: set<RelayUrl>)

  datatype State = State(next: nat, revision: nat, observations: map<ObservationId, Installed>)

  const EMPTY: State := State(0, 0, map[])

  function Bumped(n: nat): nat {
    if n >= MAX_COUNT then MAX_COUNT else n + 1
  }

  // ----- Operations -----

  /** A root is active from the start; a generation is provisional until activated. */
  function InstalledFor(s: State, public: Option<ObservationId>): (State, Option<ObservationId>) {
    if public.Some? && public.value !in s.observations then (s, None)
    else
      var id := Bumped(s.next);
      var owner := if public.Some? then public.value else id;
      var entry := Installed(owner, public.None?, None, {}, map[], Unauthenticated, {});
      var added := s.observations[id := entry];
      var linked := if public.Some?
                    then added[public.value := added[public.value].(children := added[public.value].children + {id})]
                    else added;
      (s.(next := id, observations := linked), Some(id))
  }

  predicate MayActivate(s: State, public: ObservationId, child: ObservationId) {
    && child in s.observations && s.observations[child].public == public && !s.observations[child].active
    && public in s.observations && child in s.observations[public].children
  }

  function Disowned(observations: map<ObservationId, Installed>, public: ObservationId, child: ObservationId):
    map<ObservationId, Installed>
    requires public in observations
  {
    observations[public := observations[public].(children := observations[public].children - {child})]
  }

  /** Makes one generation current and removes the one it replaces. */
  function Activated(s: State, public: ObservationId, child: ObservationId): State
    requires MayActivate(s, public, child)
  {
    var retired := s.observations[public].activeChild;
    var pointed := s.observations[public := s.observations[public].(activeChild := Some(child))];
    var raised := pointed[child := pointed[child].(active := true)];
    var left := if retired.Some? && retired.value != child
                then Disowned(raised, public, retired.value) - {retired.value}
                else raised;
    s.(observations := left, revision := Bumped(s.revision))
  }

  /** Removes an observation, unlinks it from its parent, and removes its generations. */
  function Withdrew(s: State, id: ObservationId): State {
    if id !in s.observations then s
    else
      var gone := s.observations[id];
      var rest := s.observations - {id};
      var unlinked := if gone.public != id && gone.public in rest
                      then
                        var parent := rest[gone.public];
                        var current := if parent.activeChild == Some(id) then None else parent.activeChild;
                        rest[gone.public := parent.(children := parent.children - {id}, activeChild := current)]
                      else rest;
      s.(observations := unlinked - gone.children, revision := Bumped(s.revision))
  }

  /** Relays that left keep withdrawn evidence after a route withdrawal and are forgotten
      otherwise; relays that stayed take the new demand and keep their state. */
  function Reassigned(relays: map<RelayUrl, Assigned>, wanted: map<RelayUrl, RelayDemand>,
                      withdrawal: Withdrawal): map<RelayUrl, Assigned> {
    map r | r in wanted.Keys + (if withdrawal == RouteWithdrawn then relays.Keys else {}) ::
      if r in wanted
      then Assigned(wanted[r], if r in relays then relays[r].state else Planned)
      else relays[r].(state := Withdrawn(withdrawal))
  }

  function AssignedTo(s: State, id: ObservationId, access: Authority, wanted: map<RelayUrl, RelayDemand>,
                      withdrawal: Withdrawal): State {
    if id !in s.observations then s
    else
      var held := s.observations[id];
      var next := held.(access := access, relays := Reassigned(held.relays, wanted, withdrawal), live := wanted.Keys);
      s.(observations := s.observations[id := next], revision := Bumped(s.revision))
  }

  /** How far one relay got; an unchanged report changes nothing. */
  function Reported(s: State, id: ObservationId, relay: RelayUrl, next: RelayState): State {
    if id !in s.observations || relay !in s.observations[id].relays || s.observations[id].relays[relay].state == next
    then s
    else
      var held := s.observations[id];
      var update := held.(relays := held.relays[relay := held.relays[relay].(state := next)]);
      s.(observations := s.observations[id := update], revision := Bumped(s.revision))
  }

  // ----- Demand -----

  /** Active, and still holding demand at the relay. */
  predicate Wants(s: State, id: ObservationId, relay: RelayUrl) {
    && id in s.observations && s.observations[id].active
    && relay in s.observations[id].relays && !s.observations[id].relays[relay].state.Withdrawn?
  }

  function DemandOf(s: State, id: ObservationId, relay: RelayUrl): (RelayDemand, Authority)
    requires Wants(s, id, relay)
  {
    (s.observations[id].relays[relay].demand, s.observations[id].access)
  }

  /** What is desired at one relay, an item per demanding observation, in identity order. */
  function DesiredAt(s: State, ids: seq<ObservationId>, relay: RelayUrl): seq<(RelayDemand, Authority)> {
    if ids == [] then []
    else
      var last, before := ids[|ids| - 1], DesiredAt(s, ids[..|ids| - 1], relay);
      if Wants(s, last, relay) then before + [DemandOf(s, last, relay)] else before
  }

  /** The observation may publish for the public identity: itself, or as its current generation. */
  predicate Publishable(s: State, public: ObservationId, id: ObservationId) {
    && id in s.observations && s.observations[id].active
    && (public != id ==> s.observations[id].public == public && public in s.observations
                         && s.observations[public].activeChild == Some(id))
  }

  // ----- The invariant -----

  predicate IsRoot(s: State, id: ObservationId) {
    id in s.observations && s.observations[id].public == id
  }

  ghost predicate RootShape(s: State, id: ObservationId)
    requires id in s.observations
  {
    var o := s.observations[id];
    && o.active && id !in o.children
    && (forall c :: c in o.children ==> c in s.observations && s.observations[c].public == id)
    && (o.activeChild.Some? ==> o.activeChild.value in o.children)
  }

  ghost predicate ChildShape(s: State, id: ObservationId)
    requires id in s.observations
  {
    var o := s.observations[id];
    && o.children == {} && o.activeChild.None?
    && IsRoot(s, o.public) && id in s.observations[o.public].children
    && (o.active <==> s.observations[o.public].activeChild == Some(id))
  }

  ghost predicate Inv(s: State) {
    && (forall id :: id in s.observations ==> 0 < id <= s.next)
    && (forall id :: id in s.observations ==>
                       if s.observations[id].public == id then RootShape(s, id) else ChildShape(s, id))
  }

  // ----- Steps -----

  datatype Step =
    | Install
    | InstallChild(public: ObservationId)
    | Activate(public: ObservationId, child: ObservationId)
    | Withdraw(id: ObservationId)
    | Assign(id: ObservationId, access: Authority, wanted: map<RelayUrl, RelayDemand>, withdrawal: Withdrawal)
    | Report(id: ObservationId, relay: RelayUrl, state: RelayState)

  function After(s: State, step: Step): State {
    match step
    case Install => InstalledFor(s, None).0
    case InstallChild(public) => InstalledFor(s, Some(public)).0
    case Activate(public, child) => if MayActivate(s, public, child) then Activated(s, public, child) else s
    case Withdraw(id) => Withdrew(s, id)
    case Assign(id, access, wanted, withdrawal) => AssignedTo(s, id, access, wanted, withdrawal)
    case Report(id, relay, state) => Reported(s, id, relay, state)
  }

  /** The counter is not spent, and generations are installed under roots only. */
  ghost predicate Regular(s: State, step: Step) {
    && (step.Install? || step.InstallChild? ==> s.next < MAX_COUNT)
    && (step.InstallChild? && step.public in s.observations ==> IsRoot(s, step.public))
  }

  lemma InstallKeeps(s: State, public: Option<ObservationId>)
    requires Inv(s) && s.next < MAX_COUNT
             && (public.Some? && public.value in s.observations ==> IsRoot(s, public.value))
    ensures Inv(InstalledFor(s, public).0)
  {
    var next := InstalledFor(s, public).0;
    forall id | id in next.observations
      ensures if next.observations[id].public == id then RootShape(next, id) else ChildShape(next, id)
    {
      if id in s.observations {
        assert if s.observations[id].public == id then RootShape(s, id) else ChildShape(s, id);
      }
    }
  }

  lemma ActivateKeeps(s: State, public: ObservationId, child: ObservationId)
    requires Inv(s) && MayActivate(s, public, child)
    ensures Inv(Activated(s, public, child))
  {
    var next := Activated(s, public, child);
    assert RootShape(s, public) && ChildShape(s, child);
    forall id | id in next.observations
      ensures if next.observations[id].public == id then RootShape(next, id) else ChildShape(next, id)
    {
      assert if s.observations[id].public == id then RootShape(s, id) else ChildShape(s, id);
    }
  }

  lemma WithdrawKeeps(s: State, gone: ObservationId)
    requires Inv(s) && gone in s.observations
    ensures Inv(Withdrew(s, gone))
    ensures forall id :: id in Withdrew(s, gone).observations ==>
                           id in s.observations && s.observations[id].public != gone
  {
    var next := Withdrew(s, gone);
    assert if s.observations[gone].public == gone then RootShape(s, gone) else ChildShape(s, gone);
    forall id | id in next.observations
      ensures s.observations[id].public != gone
      ensures if next.observations[id].public == id then RootShape(next, id) else ChildShape(next, id)
    {
      assert if s.observations[id].public == id then RootShape(s, id) else ChildShape(s, id);
    }
  }

  /** Changing what one observation demands leaves the tree of observations alone. */
  lemma DemandKeeps(s: State, next: State)
    requires Inv(s) && next.next == s.next && next.observations.Keys == s.observations.Keys
    requires forall id :: id in s.observations ==>
               next.observations[id] == s.observations[id].(
                 relays := next.observations[id].relays,
                 access := next.observations[id].access,
                 live := next.observations[id].live)
    ensures Inv(next)
  {
    forall id | id in next.observations
      ensures if next.observations[id].public == id then RootShape(next, id) else ChildShape(next, id)
    {
      assert if s.observations[id].public == id then RootShape(s, id) else ChildShape(s, id);
    }
  }

  lemma StepKeeps(s: State, step: Step)
    requires Inv(s) && Regular(s, step)
    ensures Inv(After(s, step))
  {
    match step
    case Install => InstallKeeps(s, None);
    case InstallChild(public) => InstallKeeps(s, Some(public));
    case Activate(public, child) => if MayActivate(s, public, child) { ActivateKeeps(s, public, child); }
    case Withdraw(id) => if id in s.observations { WithdrawKeeps(s, id); }
    case Assign(_, _, _, _) => DemandKeeps(s, After(s, step));
    case Report(_, _, _) => DemandKeeps(s, After(s, step));
  }

  // ----- Runs -----

  ghost predicate Run(run: seq<State>, steps: seq<Step>) {
    && |run| == |steps| + 1 && run[0] == EMPTY
    && forall i :: 0 <= i < |steps| ==> Regular(run[i], steps[i]) && run[i + 1] == After(run[i], steps[i])
  }

  lemma {:induction false} RunInv(run: seq<State>, steps: seq<Step>, i: nat)
    requires Run(run, steps) && i < |run|
    ensures Inv(run[i])
  {
    if i > 0 {
      RunInv(run, steps, i - 1);
      StepKeeps(run[i - 1], steps[i - 1]);
      assert run[i - 1 + 1] == After(run[i - 1], steps[i - 1]);
    }
  }

  /** In every run a public observation has at most one active generation, and it is the
      one its parent records. */
  lemma OneActiveGeneration(run: seq<State>, steps: seq<Step>, i: nat, public: ObservationId, child: ObservationId)
    requires Run(run, steps) && i < |run| && public != child
    ensures child in run[i].observations && run[i].observations[child].public == public
            && run[i].observations[child].active
            <==> public in run[i].observations && run[i].observations[public].activeChild == Some(child)
  {
    RunInv(run, steps, i);
    var s := run[i];
    if child in s.observations && s.observations[child].public == public {
      assert ChildShape(s, child);
    }
    if public in s.observations && s.observations[public].activeChild == Some(child) {
      assert if s.observations[public].public == public then RootShape(s, public) else ChildShape(s, public);
      assert ChildShape(s, child);
    }
  }

  /** Desired demand comes only from installed roots and their current generations. */
  lemma DesiredIsCurrent(run: seq<State>, steps: seq<Step>, i: nat, id: ObservationId, relay: RelayUrl)
    requires Run(run, steps) && i < |run| && Wants(run[i], id, relay)
    ensures var public := run[i].observations[id].public;
            IsRoot(run[i], public) && (id == public || run[i].observations[public].activeChild == Some(id))
  {
    RunInv(run, steps, i);
    assert if run[i].observations[id].public == id then RootShape(run[i], id) else ChildShape(run[i], id);
  }

  /** Withdrawing a parent leaves none of its generations. */
  lemma WithdrawingRemovesGenerations(run: seq<State>, steps: seq<Step>, i: nat, public: ObservationId)
    requires Run(run, steps) && i < |steps| && steps[i] == Withdraw(public)
    ensures var next := run[i + 1];
            && public !in next.observations
            && forall id :: id in next.observations ==> next.observations[id].public != public
  {
    RunInv(run, steps, i);
    var s, next := run[i], run[i + 1];
    if public in s.observations {
      WithdrawKeeps(s, public);
    } else {
      forall id | id in s.observations
        ensures s.observations[id].public != public
      {
        assert if s.observations[id].public == id then RootShape(s, id) else ChildShape(s, id);
      }
    }
  }

  /** Identities are never reused: one that was minted and is gone stays gone. */
  lemma {:induction false} GoneForGood(run: seq<State>, steps: seq<Step>, i: nat, j: nat, id: ObservationId)
    requires Run(run, steps) && i <= j < |run| && id <= run[i].next && id !in run[i].observations
    ensures id <= run[j].next && id !in run[j].observations
    decreases j - i
  {
    if i < j {
      GoneForGood(run, steps, i, j - 1, id);
      assert Regular(run[j - 1], steps[j - 1]) && run[j - 1 + 1] == After(run[j - 1], steps[j - 1]);
    }
  }

  // ----- Who may publish -----

  /** What may publish goes on publishing until it is removed. */
  lemma PublishingGoesOn(s: State, step: Step, public: ObservationId, id: ObservationId)
    requires Inv(s) && Regular(s, step) && Publishable(s, public, id)
    ensures id in After(s, step).observations ==> Publishable(After(s, step), public, id)
  {
    assert if s.observations[id].public == id then RootShape(s, id) else ChildShape(s, id);
    if step.Activate? && MayActivate(s, step.public, step.child) {
      assert RootShape(s, step.public) && ChildShape(s, step.child);
    } else if step.Withdraw? && step.id in s.observations {
      assert if s.observations[step.id].public == step.id then RootShape(s, step.id) else ChildShape(s, step.id);
    }
  }

  /** Minted, and publishing as long as it is installed. */
  ghost predicate Publishes(s: State, public: ObservationId, id: ObservationId) {
    id <= s.next && (id in s.observations ==> Publishable(s, public, id))
  }

  lemma PublishesOn(s: State, step: Step, public: ObservationId, id: ObservationId)
    requires Inv(s) && Regular(s, step) && Publishes(s, public, id)
    ensures Publishes(After(s, step), public, id)
  {
    if id in s.observations {
      PublishingGoesOn(s, step, public, id);
    }
  }

  lemma {:induction false} PublishesWhileInstalled(run: seq<State>, steps: seq<Step>, i: nat, j: nat,
                                                   public: ObservationId, id: ObservationId)
    requires Run(run, steps) && i <= j < |run| && Publishes(run[i], public, id)
    ensures Publishes(run[j], public, id)
    decreases j - i
  {
    hide After, Regular, Inv, Publishes;
    if i < j {
      PublishesWhileInstalled(run, steps, i, j - 1, public, id);
      RunInv(run, steps, j - 1);
      assert Regular(run[j - 1], steps[j - 1]) && run[j - 1 + 1] == After(run[j - 1], steps[j - 1]);
      PublishesOn(run[j - 1], steps[j - 1], public, id);
    }
  }

  /** In every run, whatever may publish for a public identity beside it is the one current
      generation, and a generation that lost that right never has it again. */
  lemma PublicationIsOwned(run: seq<State>, steps: seq<Step>, i: nat, j: nat, k: nat, public: ObservationId,
                           id: ObservationId)
    requires Run(run, steps) && i <= j <= k < |run| && Publishable(run[i], public, id)
    ensures id != public ==> forall other :: other != public && Publishable(run[i], public, other) ==> other == id
    ensures !Publishable(run[j], public, id) ==> !Publishable(run[k], public, id)
  {
    hide After, Regular;
    RunInv(run, steps, i);
    PublishesWhileInstalled(run, steps, i, j, public, id);
    if !Publishable(run[j], public, id) {
      GoneForGood(run, steps, j, k, id);
    }
  }

  // ----- What an assignment makes desired -----

  /** A relay is desired afterwards exactly when it is wanted, the observation is active and
      does not still hold it as withdrawn; so one that leaves is released. */
  lemma AssignDesires(s: State, id: ObservationId, access: Authority, wanted: map<RelayUrl, RelayDemand>,
                      withdrawal: Withdrawal, relay: RelayUrl)
    requires id in s.observations
    ensures Wants(AssignedTo(s, id, access, wanted, withdrawal), id, relay) <==>
              && relay in wanted && s.observations[id].active
              && !(relay in s.observations[id].relays && s.observations[id].relays[relay].state.Withdrawn?)
  {
  }

  /** A relay routing drops and names again stays out of the desired demand. */
  lemma ReturningRouteIsNotDesired(s: State, id: ObservationId, access: Authority, wanted: map<RelayUrl, RelayDemand>,
                                   relay: RelayUrl)
    requires id in s.observations && relay in s.observations[id].relays && relay in wanted
    ensures var dropped := AssignedTo(s, id, access, map[], RouteWithdrawn);
            !Wants(AssignedTo(dropped, id, access, wanted, RouteWithdrawn), id, relay)
  {
  }

  /** A generation installed under a generation outlives their root. */
  lemma NestedGenerationSurvives()
    ensures var nested := After(After(After(EMPTY, Install), InstallChild(1)), InstallChild(2));
            IsRoot(nested, 1) && 3 in nested.observations && 3 in After(nested, Withdraw(1)).observations
  {
    var root := After(EMPTY, Install);
    assert root.next == 1 && root.observations.Keys == {1};
    var child := After(root, InstallChild(1));
    assert child.next == 2 && child.observations.Keys == {1, 2} && child.observations[1].children == {2};
    var nested := After(child, InstallChild(2));
    assert nested.observations.Keys == {1, 2, 3} && nested.observations[1].children == {2};
  }

  // ----- The registry -----

  method ReassignRelays(held: map<RelayUrl, Assigned>, wanted: map<RelayUrl, RelayDemand>, withdrawal: Withdrawal)
    returns (relays: map<RelayUrl, Assigned>)
    ensures relays == Reassigned(held, wanted, withdrawal)
  {
    relays := map r | r in held && (r in wanted || withdrawal == RouteWithdrawn) ::
                if r in wanted then held[r] else held[r].(state := Withdrawn(withdrawal));
    ghost var kept := relays;
    var left := wanted.Keys;
    while left != {}
      invariant left <= wanted.Keys && relays.Keys == kept.Keys + (wanted.Keys - left)
      invariant forall r :: r in relays ==>
                  relays[r] == if r in wanted && r !in left
                               then Assigned(wanted[r], if r in kept then kept[r].state else Planned)
                               else kept[r]
      decreases left
    {
      var r :| r in left;
      left := left - {r};
      relays := relays[r := if r in relays then relays[r].(demand := wanted[r]) else Assigned(wanted[r], Planned)];
    }
    assert relays.Keys == Reassigned(held, wanted, withdrawal).Keys;
  }

  class ObservationRegistry {
    var next: nat
    var revision: nat
    var observations: map<ObservationId, Installed>

    ghost function Value(): State
      reads this
    {
      State(next, revision, observations)
    }

    constructor ()
      ensures Value() == EMPTY
    {
      next, revision, observations := 0, 0, map[];
    }

    method InstallFor(public: Option<ObservationId>) returns (id: Option<ObservationId>)
      modifies this
      ensures (Value(), id) == InstalledFor(old(Value()), public)
    {
      if public.Some? && public.value !in observations {
        return None;
      }
      next := Bumped(next);
      var owner := if public.Some? then public.value else next;
      observations := observations[next := Installed(owner, public.None?, None, {}, map[], Unauthenticated, {})];
      if public.Some? {
        var parent := observations[public.value];
        observations := observations[public.value := parent.(children := parent.children + {next})];
      }
      return Some(next);
    }

    method ActivateChild(public: ObservationId, child: ObservationId) returns (done: bool)
      modifies this
      ensures done == MayActivate(old(Value()), public, child)
      ensures Value() == After(old(Value()), Activate(public, child))
    {
      if child !in observations || observations[child].public != public || observations[child].active {
        return false;
      }
      if public !in observations || child !in observations[public].children {
        return false;
      }
      var retired := observations[public].activeChild;
      observations := observations[public := observations[public].(activeChild := Some(child))];
      observations := observations[child := observations[child].(active := true)];
      if retired.Some? && retired.value != child {
        observations := Disowned(observations, public, retired.value);
        observations := observations - {retired.value};
      }
      revision := Bumped(revision);
      return true;
    }

    method WithdrawObservation(id: ObservationId)
      modifies this
      ensures Value() == Withdrew(old(Value()), id)
    {
      if id !in observations {
        return;
      }
      var gone := observations[id];
      observations := observations - {id};
      if gone.public != id && gone.public in observations {
        var parent := observations[gone.public];
        parent := parent.(children := parent.children - {id});
        if parent.activeChild == Some(id) {
          parent := parent.(activeChild := None);
        }
        observations := observations[gone.public := parent];
      }
      ghost var unlinked := observations;
      var left := gone.children;
      while left != {}
        invariant next == old(next) && revision == old(revision)
        invariant left <= gone.children && observations == unlinked - (gone.children - left)
        decreases left
      {
        var child :| child in left;
        left := left - {child};
        observations := observations - {child};
      }
      assert gone.children - {} == gone.children;
      revision := Bumped(revision);
    }

    method AssignRelays(id: ObservationId, access: Authority, wanted: map<RelayUrl, RelayDemand>,
                        withdrawal: Withdrawal)
      modifies this
      ensures Value() == AssignedTo(old(Value()), id, access, wanted, withdrawal)
    {
      if id !in observations {
        return;
      }
      var held := observations[id];
      var relays := ReassignRelays(held.relays, wanted, withdrawal);
      observations := observations[id := held.(access := access, relays := relays, live := wanted.Keys)];
      revision := Bumped(revision);
    }

    /** Everything desired at one relay, never deduplicated. */
    method DesiredDemand(relay: RelayUrl) returns (r: seq<(RelayDemand, Authority)>)
      ensures r == DesiredAt(Value(), Ascending(observations.Keys), relay)
    {
      var ids := Ascending(observations.Keys);
      r := [];
      for i := 0 to |ids|
        invariant r == DesiredAt(Value(), ids[..i], relay)
      {
        assert ids[i] in ids && ids[..i + 1][..i] == ids[..i];
        var installed := observations[ids[i]];
        if installed.active && relay in installed.relays && !installed.relays[relay].state.Withdrawn? {
          r := r + [(installed.relays[relay].demand, installed.access)];
        }
      }
      assert ids[..|ids|] == ids;
    }
  }

  /** The desired demand at a relay is exactly what its demanding observations hold. */
  lemma {:induction false} DesiredMeaning(s: State, ids: seq<ObservationId>, relay: RelayUrl,
                                          item: (RelayDemand, Authority))
    ensures item in DesiredAt(s, ids, relay)
            <==> exists id :: id in ids && Wants(s, id, relay) && item == DemandOf(s, id, relay)
  {
    if ids != [] {
      var n := |ids| - 1;
      DesiredMeaning(s, ids[..n], relay, item);
      assert ids == ids[..n] + [ids[n]];
      if id :| id in ids[..n] && Wants(s, id, relay) && item == DemandOf(s, id, relay) {
        assert id in ids;
      }
    }
  }
}
