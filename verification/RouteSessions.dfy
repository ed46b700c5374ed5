/** The opened chain as a live session, and the fallback router's session within one. */
module RouteSessions {
  import opened Prelude
  import opened Events
  import opened Decimals
  import opened Routing
  import opened RouteComposer
  import opened RouteChain

  // ----- Configured names -----

  ghost predicate NamesValid(routers: seq<Router>) {
    && (forall i :: 0 <= i < |routers| ==> 0 < |routers[i].name| <= MAX_TEXT_BYTES)
    && (forall i, j :: 0 <= i < j < |routers| ==> routers[i].name != routers[j].name)
  }

  method ValidateNames(routers: seq<Router>) returns (r: Result<(), RouterError>)
    ensures r.Ok? <==> NamesValid(routers)
  {
    var names := {};
    for i := 0 to |routers|
      invariant NamesValid(routers[..i]) && forall n :: n in names <==> exists j :: 0 <= j < i && routers[j].name == n
    {
      var name := routers[i].name;
      if name == "" || |name| > MAX_TEXT_BYTES || name in names {
        return Err(Refused("router name"));
      }
      names := names + {name};
    }
    assert routers[..|routers|] == routers;
    return Ok(());
  }

  // ----- Input groups -----

  function Sum(counts: seq<nat>): nat {
    if counts == [] then 0 else counts[0] + Sum(counts[1..])
  }

  /** Cuts a flat input list into consecutive groups of the given sizes. */
  function Grouped(inputs: seq<Input>, counts: seq<nat>): (r: seq<seq<Input>>)
    requires |inputs| == Sum(counts)
    ensures |r| == |counts|
    decreases |counts|
  {
    if counts == [] then [] else [inputs[..counts[0]]] + Grouped(inputs[counts[0]..], counts[1..])
  }

  lemma OpensNext(chain: Chain, router: Router, inputs: seq<Input>, next: State)
    requires |chain.sessions| < |chain.composer.contributions| == |chain.composer.answered|
    requires var answer := Opens(router, UpstreamPlan(chain.composer, |chain.sessions|, 1), inputs);
             next == if answer.Ok? then Accepted(chain.composer, |chain.sessions|, router.name, answer.value)
                     else Recorded(chain.composer, BoundedError(router.name, answer.error))
    ensures var upstream := UpstreamPlan(chain.composer, |chain.sessions|, 1);
            var declared, answer := router.declares(upstream), Opens(router, upstream, inputs);
            OpenNext(chain, router, inputs)
            == Chain(chain.sessions + [if answer.Ok? then Some(router) else None], next,
                     chain.counts + [if declared.Ok? then declared.value else 0])
  {
  }

  lemma OneMoreOpen(routers: seq<Router>, targets: set<Target>, inputs: seq<seq<Input>>, i: nat, before: Chain,
                    after: Chain)
    requires i < |routers| == |inputs| && before == OpenedUpTo(routers, targets, inputs, i)
             && after == OpenNext(before, routers[i], inputs[i])
    ensures after == OpenedUpTo(routers, targets, inputs, i + 1)
  {
  }

  lemma OneMoreReplaced(start: Chain, inputs: seq<seq<Input>>, i: nat, before: Chain, after: Chain)
    requires i < |inputs| == |start.sessions| == |start.composer.contributions| == |start.composer.answered|
    requires before == ReplacedUpTo(start, inputs, i) && after == ReplaceOne(before, i, inputs[i])
    ensures after == ReplacedUpTo(start, inputs, i + 1)
  {
  }

  // ----- The chain -----

  class OpenedChain {
    const composer: Composer
    var sessions: seq<Option<Router>>
    var counts: seq<nat>
    var closed: bool

    ghost predicate Valid()
      reads this, composer
    {
      composer.Valid() && |sessions| == |counts| == |composer.contributions|
    }

    ghost function View(): Chain
      reads this, composer
    {
      Chain(sessions, composer.Value(), counts)
    }

    constructor (routers: nat, targets: set<Target>)
      ensures composer.Valid() && !closed && fresh(composer) && sessions == [] && counts == []
      ensures View() == Chain([], Fresh(routers, targets), [])
    {
      composer := new Composer(routers, targets);
      sessions, counts, closed := [], [], false;
    }

    /** Opens every router in turn against what those before it contribute. */
    method OpenRouters(routers: seq<Router>, targets: set<Target>, inputs: seq<seq<Input>>)
      requires composer.Valid() && |inputs| == |routers| && View() == Chain([], Fresh(|routers|, targets), [])
      modifies this, composer
      ensures Valid() && closed == old(closed) && View() == Opened(routers, targets, inputs)
    {
      hide OpenNext, Sound;
      for i := 0 to |routers|
        invariant composer.Valid() && closed == old(closed)
        invariant |sessions| == |counts| == i && |composer.contributions| == |routers|
        invariant View() == OpenedUpTo(routers, targets, inputs, i)
      {
        ghost var before := View();
        OpenRouter(routers[i], inputs[i]);
        OneMoreOpen(routers, targets, inputs, i, before, View());
      }
    }

    /** Declares, checks, opens and accepts one router, or records why not. */
    method OpenRouter(router: Router, inputs: seq<Input>)
      requires composer.Valid() && |sessions| == |counts| < |composer.contributions|
      modifies this, composer
      ensures composer.Valid() && closed == old(closed) && |composer.contributions| == old(|composer.contributions|)
      ensures |sessions| == |counts| == old(|sessions|) + 1 && View() == OpenNext(old(View()), router, inputs)
    {
      hide OpenNext, Accepted, Recorded;
      ghost var before := View();
      var index := |sessions|;
      var upstream := composer.PlanBefore(index, 1);
      var answer := Opens(router, upstream, inputs);
      var declared := router.declares(upstream);
      counts := counts + [if declared.Ok? then declared.value else 0];
      sessions := sessions + [if answer.Ok? then Some(router) else None];
      Settle(index, router.name, answer);
      OpensNext(before, router, inputs, composer.Value());
    }

    /** Accepts a router's answer or records its failure. */
    method Settle(index: nat, name: Text, answer: Result<Contribution, RouterError>)
      requires composer.Valid() && index < |composer.contributions|
      modifies composer
      ensures composer.Valid() && |composer.contributions| == old(|composer.contributions|)
      ensures composer.Value() == if answer.Ok? then Accepted(old(composer.Value()), index, name, answer.value)
                                  else Recorded(old(composer.Value()), BoundedError(name, answer.error))
    {
      if answer.Ok? {
        composer.Accept(index, name, answer.value);
      } else {
        composer.Record(BoundedError(name, answer.error));
      }
    }

    /** Replaces every session's inputs in chain order, each against the routers already replaced. */
    method Replace(inputs: seq<Input>) returns (r: Result<Contribution, RouterError>)
      requires Valid()
      modifies this, composer
      ensures Valid() && closed == old(closed)
      ensures r.Err? <==> closed || |inputs| != Sum(old(counts))
      ensures r.Err? ==> View() == old(View())
      ensures r.Ok? ==> View() == Replaced(old(View()), Grouped(inputs, old(counts)))
                        && r.value == Combined(composer.Value())
    {
      if closed {
        return Err(Closed);
      }
      if |inputs| != Sum(counts) {
        return Err(Refused("router replacement input count changed"));
      }
      hide ReplaceOne, Sound, Combined;
      ghost var groups := Grouped(inputs, counts);
      var rest := inputs;
      ghost var start := View();
      for index := 0 to |sessions|
        invariant Valid() && sessions == old(sessions) && counts == old(counts) && closed == old(closed)
        invariant |rest| == Sum(counts[index..]) && Grouped(rest, counts[index..]) == groups[index..]
        invariant |groups| == |sessions| && View() == ReplacedUpTo(start, groups, index)
      {
        assert counts[index..][0] == counts[index] && counts[index..][1..] == counts[index + 1..];
        var next := rest[..counts[index]];
        assert next == groups[index..][0] == groups[index];
        assert groups[index..][1..] == groups[index + 1..];
        rest := rest[counts[index]..];
        ghost var before := View();
        ReplaceSession(index, next);
        OneMoreReplaced(start, groups, index, before, View());
      }
      var combined := composer.CombinedContribution();
      r := Ok(combined);
    }

    method ReplaceSession(index: nat, next: seq<Input>)
      requires Valid() && index < |sessions|
      modifies composer
      ensures Valid() && View() == ReplaceOne(old(View()), index, next)
    {
      var upstream := composer.PlanBefore(index, 1);
      if sessions[index].Some? {
        var router := sessions[index].value;
        Settle(index, router.name, Contributes(router, upstream, next));
      }
    }

    method Close()
      modifies this`closed
      ensures closed
    {
      closed := true;
    }
  }

  /** Opens a chain once its names and input groups are in order. */
  method Open(routers: seq<Router>, targets: set<Target>, inputs: seq<seq<Input>>)
    returns (r: Result<OpenedChain, RouterError>)
    ensures r.Ok? <==> NamesValid(routers) && |inputs| == |routers|
    ensures r.Ok? ==> fresh(r.value) && fresh(r.value.composer) && r.value.Valid()
                      && r.value.View() == Opened(routers, targets, inputs)
  {
    var names := ValidateNames(routers);
    if names.Err? {
      return Err(names.error);
    }
    if |inputs| != |routers| {
      return Err(Refused("router input groups do not match routers"));
    }
    var chain := new OpenedChain(|routers|, targets);
    chain.OpenRouters(routers, targets, inputs);
    return Ok(chain);
  }

  // ----- The fallback router -----

  datatype Fallback = Fallback(relays: set<RelayUrl>, minimum: nat, onReads: bool, onWrites: bool)

  /** How many relays the plan already covers a target with. */
  function CoveredBy(plan: Plan, t: Target): nat {
    if t in plan.coverage && plan.coverage[t].Covered? then |plan.coverage[t].relays| else 0
  }

  function Thin(f: Fallback, targets: set<Target>, upstream: Plan): set<Target> {
    set t | t in targets && CoveredBy(upstream, t) < f.minimum
  }

  function FallbackContribution(f: Fallback, isRead: bool, targets: set<Target>, upstream: Plan,
                                order: seq<RelayUrl>): Contribution
    requires forall r :: r in order <==> r in f.relays
  {
    var thin := Thin(f, targets, upstream);
    if (if isRead then !f.onReads else !f.onWrites) || thin == {} then NOTHING
    else
      Contribution(
        seq(|order|, i requires 0 <= i < |order| =>
          Destination(order[i], thin, "", "upstream coverage below " + Digits(f.minimum))),
        map t | t in thin :: if f.relays == {} then SettledAbsent else Covered(f.relays),
        {},
        [])
  }

  /** After an enabled fallback every thin target is covered by what covered it before and
      all the fallback relays, and every other target keeps its coverage. */
  lemma FallbackFills(f: Fallback, isRead: bool, targets: set<Target>, cs: seq<Contribution>, upstream: Plan,
                      order: seq<RelayUrl>, t: Target)
    requires forall r :: r in order <==> r in f.relays
    requires f.relays != {} && (if isRead then f.onReads else f.onWrites)
    ensures var before := Combine(cs).coverage;
            var after := Combine(cs + [FallbackContribution(f, isRead, targets, upstream, order)]).coverage;
            if t in Thin(f, targets, upstream)
            then
              && t in after
              && after[t] == Covered((if Held(before, t).Covered? then before[t].relays else {}) + f.relays)
            else (t in after <==> t in before) && (t in before ==> after[t] == before[t])
  {
    var c := FallbackContribution(f, isRead, targets, upstream, order);
    assert (cs + [c])[..|cs|] == cs;
  }

  class FallbackSession {
    const fallback: Fallback
    const isRead: bool
    const targets: set<Target>
    const order: seq<RelayUrl>
    var upstream: Plan
    var current: Contribution

    /** What is held is what opening afresh on the held upstream would give. */
    ghost predicate Valid()
      reads this
    {
      && (forall r :: r in order <==> r in fallback.relays)
      && current == FallbackContribution(fallback, isRead, targets, upstream, order)
    }

    constructor (fallback: Fallback, isRead: bool, targets: set<Target>, order: seq<RelayUrl>, upstream: Plan)
      requires forall r :: r in order <==> r in fallback.relays
      ensures Valid() && this.upstream == upstream && this.fallback == fallback && this.isRead == isRead
              && this.targets == targets
    {
      this.fallback, this.isRead, this.targets, this.order := fallback, isRead, targets, order;
      this.upstream := upstream;
      current := FallbackContribution(fallback, isRead, targets, upstream, order);
    }

    method Replace(upstream: Plan, inputs: seq<Input>) returns (r: Result<Contribution, RouterError>)
      requires Valid()
      modifies this
      ensures Valid()
      ensures inputs != [] ==> r.Err? && unchanged(this)
      ensures inputs == [] ==> r == Ok(current) && this.upstream == upstream
    {
      if inputs != [] {
        return Err(Refused("fallback router accepts no query inputs"));
      }
      this.upstream := upstream;
      current := FallbackContribution(fallback, isRead, targets, upstream, order);
      return Ok(current);
    }
  }
}
