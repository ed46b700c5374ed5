/** Opening an ordered router chain and replacing its inputs in place. */
module RouteChain {
  import opened Prelude
  import opened Routing
  import opened RouteComposer

  /** A complete local query snapshot, as routers see it. */
  type Input = nat

  /** A router that answers as a function of the upstream plan and its inputs: how many
      queries it declares, and what it contributes. */
  datatype Router = Router(
    name: Text,
    declares: Plan -> Result<nat, RouterError>,
    route: (Plan, seq<Input>) -> Result<Contribution, RouterError>)

  // ----- One router's answer -----

  function Stamped(ds: seq<Destination>, router: Text): seq<Destination> {
    seq(|ds|, i requires 0 <= i < |ds| => ds[i].(router := router))
  }

  /** Stamps the router's name and refuses a contribution outside the bounds. */
  function Attribute(c: Contribution, router: Text): Result<Contribution, RouterError> {
    var named := c.(destinations := Stamped(c.destinations, router));
    if |c.shortfalls| > MAX_SHORTFALLS then Err(OverBound("route shortfalls"))
    else if FirstExceeded(named).Some? then Err(OverBound(FirstExceeded(named).value))
    else Ok(named)
  }

  function Contributes(router: Router, upstream: Plan, inputs: seq<Input>): Result<Contribution, RouterError> {
    var raw := router.route(upstream, inputs);
    if raw.Err? then raw else Attribute(raw.value, router.name)
  }

  /** What opening a router yields: its declaration must match the inputs it is given. */
  function Opens(router: Router, upstream: Plan, inputs: seq<Input>): Result<Contribution, RouterError> {
    var declared := router.declares(upstream);
    if declared.Err? then Err(declared.error)
    else if declared.value != |inputs| then Err(Refused("router input count does not match declaration"))
    else Contributes(router, upstream, inputs)
  }

  // ----- The chain -----

  datatype Chain = Chain(sessions: seq<Option<Router>>, composer: State, counts: seq<nat>)

  /** Opens the next router against what the routers before it contribute. */
  function OpenNext(chain: Chain, router: Router, inputs: seq<Input>): Chain
    requires |chain.sessions| < |chain.composer.contributions| == |chain.composer.answered|
  {
    var index := |chain.sessions|;
    var upstream := UpstreamPlan(chain.composer, index, 1);
    var answer := Opens(router, upstream, inputs);
    var declared := router.declares(upstream);
    var count := if declared.Ok? then declared.value else 0;
    if answer.Ok? then
      Chain(chain.sessions + [Some(router)], Accepted(chain.composer, index, router.name, answer.value),
            chain.counts + [count])
    else
      Chain(chain.sessions + [None], Recorded(chain.composer, BoundedError(router.name, answer.error)),
            chain.counts + [count])
  }

  /** The chain once its first `n` routers are open. */
  function OpenedUpTo(routers: seq<Router>, targets: set<Target>, inputs: seq<seq<Input>>, n: nat): (r: Chain)
    requires n <= |routers| == |inputs|
    ensures |r.sessions| == |r.counts| == n && |r.composer.contributions| == |r.composer.answered| == |routers|
    ensures r.composer.targets == targets
  {
    if n == 0 then Chain([], Fresh(|routers|, targets), [])
    else OpenNext(OpenedUpTo(routers, targets, inputs, n - 1), routers[n - 1], inputs[n - 1])
  }

  function Opened(routers: seq<Router>, targets: set<Target>, inputs: seq<seq<Input>>): (r: Chain)
    requires |routers| == |inputs|
  {
    OpenedUpTo(routers, targets, inputs, |routers|)
  }

  /** Replaces one session's inputs; a router without a session is passed over. */
  function ReplaceOne(chain: Chain, index: nat, inputs: seq<Input>): Chain
    requires index < |chain.sessions| == |chain.composer.contributions| == |chain.composer.answered|
  {
    if chain.sessions[index].None? then chain
    else
      var router := chain.sessions[index].value;
      var answer := Contributes(router, UpstreamPlan(chain.composer, index, 1), inputs);
      chain.(composer := if answer.Ok? then Accepted(chain.composer, index, router.name, answer.value)
                         else Recorded(chain.composer, BoundedError(router.name, answer.error)))
  }

  /** The chain once its first `n` sessions have new inputs. */
  function ReplacedUpTo(chain: Chain, inputs: seq<seq<Input>>, n: nat): (r: Chain)
    requires n <= |inputs| == |chain.sessions| == |chain.composer.contributions| == |chain.composer.answered|
    ensures r.sessions == chain.sessions && r.counts == chain.counts && r.composer.targets == chain.composer.targets
    ensures |r.composer.contributions| == |r.composer.answered| == |chain.sessions|
  {
    if n == 0 then chain else ReplaceOne(ReplacedUpTo(chain, inputs, n - 1), n - 1, inputs[n - 1])
  }

  function Replaced(chain: Chain, inputs: seq<seq<Input>>): Chain
    requires |inputs| == |chain.sessions| == |chain.composer.contributions| == |chain.composer.answered|
  {
    ReplacedUpTo(chain, inputs, |inputs|)
  }

  // ----- Fixed points of the chain -----

  /** Nothing failed and nothing was rolled back. */
  ghost predicate Quiet(s: State) {
    s.shortfalls == [] && s.discarded == 0
  }

  /** The plan the routers before `index` give, from their contributions alone. */
  function PlanBehind(cs: seq<Contribution>, targets: set<Target>): Plan {
    var upstream := CompleteTargets(Combine(cs), targets, false);
    if WithinBounds(upstream) then PlanOf(1, upstream) else EMPTY_PLAN
  }

  ghost predicate AnswersAt(routers: seq<Router>, targets: set<Target>, inputs: seq<seq<Input>>, cs: seq<Contribution>,
                            i: nat)
    requires i < |routers| == |inputs| == |cs|
  {
    Contributes(routers[i], PlanBehind(cs[..i], targets), inputs[i]) == Ok(cs[i])
  }

  /** Each contribution is its router's answer to the plan of those before it. */
  ghost predicate Answers(routers: seq<Router>, targets: set<Target>, inputs: seq<seq<Input>>, cs: seq<Contribution>,
                          n: nat)
    requires n <= |routers| == |inputs| == |cs|
  {
    forall i :: 0 <= i < n ==> AnswersAt(routers, targets, inputs, cs, i)
  }

  /** There is only one such chain of contributions. */
  lemma {:induction false} AnswersUnique(routers: seq<Router>, targets: set<Target>, inputs: seq<seq<Input>>,
                                         a: seq<Contribution>, b: seq<Contribution>, n: nat)
    requires n <= |routers| == |inputs| == |a| == |b|
    requires Answers(routers, targets, inputs, a, n) && Answers(routers, targets, inputs, b, n)
    ensures a[..n] == b[..n]
  {
    if n > 0 {
      AnswersUnique(routers, targets, inputs, a, b, n - 1);
      assert a[n - 1] == b[n - 1] by {
        OneAnswer(routers, targets, inputs, a, b, n - 1);
      }
      assert a[..n] == a[..n - 1] + [a[n - 1]] && b[..n] == b[..n - 1] + [b[n - 1]];
    }
  }

  lemma OneAnswer(routers: seq<Router>, targets: set<Target>, inputs: seq<seq<Input>>,
                  a: seq<Contribution>, b: seq<Contribution>, i: nat)
    requires i < |routers| == |inputs| == |a| == |b| && a[..i] == b[..i]
    requires AnswersAt(routers, targets, inputs, a, i) && AnswersAt(routers, targets, inputs, b, i)
    ensures a[i] == b[i]
  {
  }

  // ----- One step -----

  lemma UpstreamIsBehind(s: State, index: nat)
    requires index < |s.contributions|
    ensures UpstreamPlan(s, index, 1) == PlanBehind(s.contributions[..index], s.targets)
  {
  }

  /** Accepting quietly places the contribution and leaves the earlier ones alone. */
  lemma QuietAccept(s: State, index: nat, router: Text, c: Contribution)
    requires index < |s.contributions| == |s.answered| && Quiet(Accepted(s, index, router, c))
    ensures Quiet(s) && Accepted(s, index, router, c) == Placed(s, index, c)
  {
  }

  lemma AnswersExtend(routers: seq<Router>, targets: set<Target>, inputs: seq<seq<Input>>, cs: seq<Contribution>,
                      i: nat, c: Contribution)
    requires i < |routers| == |inputs| == |cs| && Answers(routers, targets, inputs, cs, i)
    requires Contributes(routers[i], PlanBehind(cs[..i], targets), inputs[i]) == Ok(c)
    ensures Answers(routers, targets, inputs, cs[i := c], i + 1)
  {
    var next := cs[i := c];
    forall j | 0 <= j < i + 1
      ensures AnswersAt(routers, targets, inputs, next, j)
    {
      assert next[..j] == cs[..j];
      if j < i {
        assert AnswersAt(routers, targets, inputs, cs, j);
      }
    }
  }

  ghost predicate AnsweredUpTo(s: State, n: nat) {
    n <= |s.answered| && forall j :: 0 <= j < n ==> s.answered[j]
  }

  // ----- Opening and replacing reach the fixed point -----

  /** Every session is its router's. */
  ghost predicate Seated(chain: Chain, routers: seq<Router>) {
    |chain.sessions| <= |routers| && forall j :: 0 <= j < |chain.sessions| ==> chain.sessions[j] == Some(routers[j])
  }

  /** Evidence only grows: an operation that ends quiet began quiet and was not rolled back. */
  lemma OpenNextQuiet(chain: Chain, router: Router, inputs: seq<Input>)
    requires |chain.sessions| < |chain.composer.contributions| == |chain.composer.answered|
    requires Quiet(OpenNext(chain, router, inputs).composer)
    ensures Quiet(chain.composer)
    ensures var i := |chain.sessions|;
            var answer := Contributes(router, PlanBehind(chain.composer.contributions[..i], chain.composer.targets),
                                      inputs);
            && answer.Ok?
            && OpenNext(chain, router, inputs).composer == Placed(chain.composer, i, answer.value)
            && OpenNext(chain, router, inputs).sessions == chain.sessions + [Some(router)]
  {
    var i := |chain.sessions|;
    UpstreamIsBehind(chain.composer, i);
    var answer := Opens(router, UpstreamPlan(chain.composer, i, 1), inputs);
    if answer.Ok? {
      QuietAccept(chain.composer, i, router.name, answer.value);
    }
  }

  /** The first `n` routers have their sessions, have answered, and contribute their answers. */
  ghost predicate Underway(chain: Chain, routers: seq<Router>, targets: set<Target>, inputs: seq<seq<Input>>, n: nat) {
    && n <= |routers| == |inputs| == |chain.composer.contributions| == |chain.composer.answered|
    && |chain.sessions| == n
    && chain.composer.targets == targets && Seated(chain, routers)
    && Answers(routers, targets, inputs, chain.composer.contributions, n) && AnsweredUpTo(chain.composer, n)
  }

  lemma PlacedUnderway(chain: Chain, routers: seq<Router>, targets: set<Target>, inputs: seq<seq<Input>>, n: nat,
                       c: Contribution, next: Chain)
    requires n < |routers| == |inputs| && Underway(chain, routers, targets, inputs, n)
    requires Contributes(routers[n], PlanBehind(chain.composer.contributions[..n], targets), inputs[n]) == Ok(c)
    requires next.composer == Placed(chain.composer, n, c) && next.sessions == chain.sessions + [Some(routers[n])]
    ensures Underway(next, routers, targets, inputs, n + 1)
  {
    AnswersExtend(routers, targets, inputs, chain.composer.contributions, n, c);
  }

  lemma OpenNextReaches(chain: Chain, routers: seq<Router>, targets: set<Target>, inputs: seq<seq<Input>>, n: nat)
    requires n < |routers| == |inputs| && |chain.sessions| == n
    requires |chain.composer.contributions| == |chain.composer.answered| == |routers|
             && chain.composer.targets == targets
    requires Quiet(chain.composer) ==> Underway(chain, routers, targets, inputs, n)
    ensures Quiet(OpenNext(chain, routers[n], inputs[n]).composer) ==>
              Underway(OpenNext(chain, routers[n], inputs[n]), routers, targets, inputs, n + 1)
  {
    var next := OpenNext(chain, routers[n], inputs[n]);
    if Quiet(next.composer) {
      OpenNextQuiet(chain, routers[n], inputs[n]);
      var answer := Contributes(routers[n], PlanBehind(chain.composer.contributions[..n], targets), inputs[n]);
      PlacedUnderway(chain, routers, targets, inputs, n, answer.value, next);
    }
  }

  lemma {:induction false} OpenReaches(routers: seq<Router>, targets: set<Target>, inputs: seq<seq<Input>>, n: nat)
    requires n <= |routers| == |inputs|
    ensures Quiet(OpenedUpTo(routers, targets, inputs, n).composer) ==>
              Underway(OpenedUpTo(routers, targets, inputs, n), routers, targets, inputs, n)
  {
    if n > 0 {
      hide OpenNext, Quiet, Underway;
      OpenReaches(routers, targets, inputs, n - 1);
      OpenNextReaches(OpenedUpTo(routers, targets, inputs, n - 1), routers, targets, inputs, n - 1);
    }
  }

  lemma ReplaceOneQuiet(chain: Chain, routers: seq<Router>, index: nat, inputs: seq<Input>)
    requires index < |chain.sessions| == |chain.composer.contributions| == |chain.composer.answered| == |routers|
             && Seated(chain, routers)
    requires Quiet(ReplaceOne(chain, index, inputs).composer)
    ensures Quiet(chain.composer)
    ensures var upstream := PlanBehind(chain.composer.contributions[..index], chain.composer.targets);
            var answer := Contributes(routers[index], upstream, inputs);
            && answer.Ok?
            && ReplaceOne(chain, index, inputs).composer == Placed(chain.composer, index, answer.value)
  {
    UpstreamIsBehind(chain.composer, index);
    var answer := Contributes(routers[index], UpstreamPlan(chain.composer, index, 1), inputs);
    if answer.Ok? {
      QuietAccept(chain.composer, index, routers[index].name, answer.value);
    }
  }

  // ----- Replacement passes through mixed chains -----

  /** The first `i` routers on their new contributions, the others still on their old ones. */
  function Mixed(fresher: seq<Contribution>, older: seq<Contribution>, i: nat): seq<Contribution>
    requires i <= |fresher| == |older|
  {
    fresher[..i] + older[i..]
  }

  /** Every chain on the way from the old contributions to the new ones is within bounds. */
  ghost predicate PassesBounds(fresher: seq<Contribution>, older: seq<Contribution>, n: nat)
    requires n <= |fresher| == |older|
  {
    forall i :: 0 < i <= n ==> WithinBounds(Combine(Mixed(fresher, older, i)))
  }

  /** The quiet composer in which every router answered. */
  function Settled(cs: seq<Contribution>, targets: set<Target>): State {
    State(cs, seq(|cs|, _ => true), [], 0, targets)
  }

  lemma QuietIsSettled(s: State, n: nat)
    requires Quiet(s) && |s.contributions| == |s.answered| == n && AnsweredUpTo(s, n)
    ensures s == Settled(s.contributions, s.targets)
  {
    assert s.answered == seq(n, _ => true);
  }

  /** Placing a contribution in a settled chain keeps it settled, exactly when it then fits. */
  lemma SettledAccepts(cs: seq<Contribution>, targets: set<Target>, index: nat, router: Text, c: Contribution)
    requires index < |cs|
    ensures var s, placed := Settled(cs, targets), cs[index := c];
            if WithinBounds(Combine(placed)) then Accepted(s, index, router, c) == Settled(placed, targets)
            else !Quiet(Accepted(s, index, router, c)) && Accepted(s, index, router, c).contributions == cs
  {
    var s := Settled(cs, targets);
    assert Placed(s, index, c) == Settled(cs[index := c], targets);
    NoneExceeded(Merged(Placed(s, index, c)));
    CompleteWithinBounds(Combine(cs[index := c]), targets, AllAnswered(Placed(s, index, c)));
  }

  /** One router moves on: the chain is the next mixed one exactly when that one fits. */
  lemma ReplaceOneMixes(chain: Chain, routers: seq<Router>, targets: set<Target>, inputs: seq<seq<Input>>,
                        fresher: seq<Contribution>, older: seq<Contribution>, i: nat)
    requires i < |routers| == |inputs| == |fresher| == |older| == |chain.sessions| && Seated(chain, routers)
    requires AnswersAt(routers, targets, inputs, fresher, i)
    requires chain.composer == Settled(Mixed(fresher, older, i), targets)
    ensures var next := ReplaceOne(chain, i, inputs[i]).composer;
            if WithinBounds(Combine(Mixed(fresher, older, i + 1)))
            then next == Settled(Mixed(fresher, older, i + 1), targets)
            else !Quiet(next)
  {
    UpstreamIsBehind(chain.composer, i);
    assert Mixed(fresher, older, i)[..i] == fresher[..i];
    assert Mixed(fresher, older, i)[i := fresher[i]] == Mixed(fresher, older, i + 1);
    SettledAccepts(Mixed(fresher, older, i), targets, i, routers[i].name, fresher[i]);
  }

  /** After `n` moves: quiet exactly if all mixed chains so far fit, and then the mixed chain itself. */
  ghost predicate OnTheWay(s: State, targets: set<Target>, fresher: seq<Contribution>, older: seq<Contribution>, n: nat)
    requires n <= |fresher| == |older|
  {
    && (Quiet(s) <==> PassesBounds(fresher, older, n))
    && (PassesBounds(fresher, older, n) ==> s == Settled(Mixed(fresher, older, n), targets))
  }

  lemma NothingMixed(targets: set<Target>, fresher: seq<Contribution>, older: seq<Contribution>)
    requires |fresher| == |older|
    ensures OnTheWay(Settled(older, targets), targets, fresher, older, 0)
  {
    assert Mixed(fresher, older, 0) == older;
  }

  lemma ReplaceStaysOnTheWay(chain: Chain, routers: seq<Router>, targets: set<Target>, inputs: seq<seq<Input>>,
                             fresher: seq<Contribution>, older: seq<Contribution>, i: nat)
    requires i < |routers| == |inputs| == |fresher| == |older| == |chain.sessions| && Seated(chain, routers)
    requires |chain.composer.contributions| == |chain.composer.answered| == |routers|
    requires AnswersAt(routers, targets, inputs, fresher, i) && OnTheWay(chain.composer, targets, fresher, older, i)
    ensures OnTheWay(ReplaceOne(chain, i, inputs[i]).composer, targets, fresher, older, i + 1)
  {
    if PassesBounds(fresher, older, i) {
      ReplaceOneMixes(chain, routers, targets, inputs, fresher, older, i);
    } else if Quiet(ReplaceOne(chain, i, inputs[i]).composer) {
      ReplaceOneQuiet(chain, routers, i, inputs[i]);
      assert false;
    }
  }

  lemma {:induction false} ReplaceMixes(chain: Chain, routers: seq<Router>, targets: set<Target>,
                                        inputs: seq<seq<Input>>,
                                        fresher: seq<Contribution>, older: seq<Contribution>, n: nat)
    requires n <= |routers| == |inputs| == |fresher| == |older| == |chain.sessions| && Seated(chain, routers)
    requires Answers(routers, targets, inputs, fresher, |routers|) && chain.composer == Settled(older, targets)
    ensures OnTheWay(ReplacedUpTo(chain, inputs, n).composer, targets, fresher, older, n)
  {
    hide ReplaceOne, OnTheWay, AnswersAt;
    if n == 0 {
      NothingMixed(targets, fresher, older);
    } else {
      ReplaceMixes(chain, routers, targets, inputs, fresher, older, n - 1);
      assert AnswersAt(routers, targets, inputs, fresher, n - 1);
      ReplaceStaysOnTheWay(ReplacedUpTo(chain, inputs, n - 1), routers, targets, inputs, fresher, older, n - 1);
    }
  }

  lemma OpenSettles(routers: seq<Router>, targets: set<Target>, inputs: seq<seq<Input>>)
    requires |routers| == |inputs| && Quiet(Opened(routers, targets, inputs).composer)
    ensures var chain := Opened(routers, targets, inputs);
            && Seated(chain, routers) && |chain.composer.contributions| == |routers|
            && Answers(routers, targets, inputs, chain.composer.contributions, |routers|)
            && chain.composer == Settled(chain.composer.contributions, targets)
  {
    OpenReaches(routers, targets, inputs, |routers|);
    QuietIsSettled(Opened(routers, targets, inputs).composer, |routers|);
  }

  /** The chain holds what a chain freshly opened on these inputs holds, and that opens quietly. */
  ghost predicate Agrees(chain: Chain, routers: seq<Router>, targets: set<Target>, inputs: seq<seq<Input>>) {
    && |routers| == |inputs| == |chain.sessions| && Seated(chain, routers)
    && Quiet(Opened(routers, targets, inputs).composer) && chain.composer == Opened(routers, targets, inputs).composer
  }

  lemma OpenAgrees(routers: seq<Router>, targets: set<Target>, inputs: seq<seq<Input>>)
    requires |routers| == |inputs| && Quiet(Opened(routers, targets, inputs).composer)
    ensures Agrees(Opened(routers, targets, inputs), routers, targets, inputs)
  {
    OpenSettles(routers, targets, inputs);
  }

  lemma ReplaceMovesExactly(chain: Chain, routers: seq<Router>, targets: set<Target>,
                            before: seq<seq<Input>>, after: seq<seq<Input>>)
    requires Agrees(chain, routers, targets, before)
    requires |routers| == |after| && Quiet(Opened(routers, targets, after).composer)
    ensures var older, fresher := chain.composer.contributions, Opened(routers, targets, after).composer.contributions;
            && (Quiet(Replaced(chain, after).composer) <==> PassesBounds(fresher, older, |routers|))
            && (Replaced(chain, after).composer == Opened(routers, targets, after).composer
                <==> PassesBounds(fresher, older, |routers|))
  {
    hide Opened, ReplacedUpTo;
    OpenSettles(routers, targets, before);
    OpenSettles(routers, targets, after);
    var older, fresher := chain.composer.contributions, Opened(routers, targets, after).composer.contributions;
    ReplaceMixes(chain, routers, targets, after, fresher, older, |routers|);
    assert Mixed(fresher, older, |routers|) == fresher;
  }

  /** Incremental routing agrees with fresh routing exactly as far as the bounds allow the
      way there: where both chains open quietly, replacing the inputs of the one ends in the
      composer of the other if and only if every mixed chain between them is within bounds. */
  lemma ReplaceAgreesWithOpen(routers: seq<Router>, targets: set<Target>, before: seq<seq<Input>>,
                              after: seq<seq<Input>>)
    requires |routers| == |before| == |after|
    requires Quiet(Opened(routers, targets, before).composer) && Quiet(Opened(routers, targets, after).composer)
    ensures var chain, opening := Opened(routers, targets, before), Opened(routers, targets, after);
            Replaced(chain, after).composer == opening.composer
            <==> PassesBounds(opening.composer.contributions, chain.composer.contributions, |routers|)
  {
    hide ReplacedUpTo, OpenNext;
    OpenAgrees(routers, targets, before);
    ReplaceMovesExactly(Opened(routers, targets, before), routers, targets, before, after);
  }

  // ----- Any number of replacements -----

  /** The new inputs open quietly too, and the way to them passes the bounds. */
  ghost predicate Passable(routers: seq<Router>, targets: set<Target>, before: seq<seq<Input>>,
                           after: seq<seq<Input>>) {
    && |routers| == |before| == |after| && Quiet(Opened(routers, targets, after).composer)
    && PassesBounds(Opened(routers, targets, after).composer.contributions,
                    Opened(routers, targets, before).composer.contributions, |routers|)
  }

  lemma ReplaceAgrees(chain: Chain, routers: seq<Router>, targets: set<Target>, before: seq<seq<Input>>,
                      after: seq<seq<Input>>)
    requires Agrees(chain, routers, targets, before) && Passable(routers, targets, before, after)
    ensures Agrees(Replaced(chain, after), routers, targets, after)
  {
    ReplaceMovesExactly(chain, routers, targets, before, after);
  }

  /** Round `i` replaces the inputs of the chain the rounds before it left, passing the bounds. */
  ghost predicate RoundAt(routers: seq<Router>, targets: set<Target>, rounds: seq<seq<seq<Input>>>, chains: seq<Chain>,
                          i: nat)
    requires 0 < i < |rounds| == |chains|
  {
    var chain := chains[i - 1];
    && |rounds[i]| == |chain.sessions| == |chain.composer.contributions| == |chain.composer.answered|
    && chains[i] == Replaced(chain, rounds[i]) && Passable(routers, targets, rounds[i - 1], rounds[i])
  }

  lemma RoundAgrees(routers: seq<Router>, targets: set<Target>, rounds: seq<seq<seq<Input>>>, chains: seq<Chain>,
                    i: nat)
    requires 0 < i < |rounds| == |chains| && RoundAt(routers, targets, rounds, chains, i)
    requires Agrees(chains[i - 1], routers, targets, rounds[i - 1])
    ensures Agrees(chains[i], routers, targets, rounds[i])
  {
    ReplaceAgrees(chains[i - 1], routers, targets, rounds[i - 1], rounds[i]);
  }

  lemma {:induction false} Onward(held: nat -> bool, n: nat)
    requires held(0) && forall i :: 0 <= i < n && held(i) ==> held(i + 1)
    ensures held(n)
  {
    if n > 0 {
      Onward(held, n - 1);
    }
  }

  /** However often a chain is replaced, it holds what a chain freshly opened on the last inputs holds. */
  lemma ReplacementsAgreeWithOpen(routers: seq<Router>, targets: set<Target>, rounds: seq<seq<seq<Input>>>,
                                  chains: seq<Chain>, n: nat)
    requires n < |rounds| == |chains| && Agrees(chains[0], routers, targets, rounds[0])
    requires forall i :: 0 < i < |rounds| ==> RoundAt(routers, targets, rounds, chains, i)
    ensures Agrees(chains[n], routers, targets, rounds[n])
  {
    hide Agrees, RoundAt;
    var held := (i: nat) => i < |rounds| && Agrees(chains[i], routers, targets, rounds[i]);
    forall i | 0 <= i < n && held(i)
      ensures held(i + 1)
    {
      RoundAgrees(routers, targets, rounds, chains, i + 1);
    }
    Onward(held, n);
  }

  // ----- Where a mixed chain does not fit -----

  /** A contribution that does not fit leaves every contribution where it was. */
  lemma RollsBack(s: State, index: nat, router: Text, c: Contribution)
    requires index < |s.contributions| == |s.answered| && !WithinBounds(Combine(s.contributions[index := c]))
    ensures Accepted(s, index, router, c).contributions == s.contributions
    ensures Accepted(s, index, router, c).answered == s.answered && Accepted(s, index, router, c).targets == s.targets
  {
    NoneExceeded(Merged(Placed(s, index, c)));
    CompleteWithinBounds(Combine(s.contributions[index := c]), s.targets, AllAnswered(Placed(s, index, c)));
  }

  lemma ReplaceOneRollsBack(chain: Chain, routers: seq<Router>, i: nat, inputs: seq<Input>, c: Contribution)
    requires i < |routers| == |chain.sessions| == |chain.composer.contributions| == |chain.composer.answered|
    requires Seated(chain, routers)
    requires Contributes(routers[i], PlanBehind(chain.composer.contributions[..i], chain.composer.targets), inputs)
             == Ok(c)
    requires !WithinBounds(Combine(chain.composer.contributions[i := c]))
    ensures ReplaceOne(chain, i, inputs).composer.contributions == chain.composer.contributions
    ensures ReplaceOne(chain, i, inputs).composer.answered == chain.composer.answered
    ensures ReplaceOne(chain, i, inputs).composer.targets == chain.composer.targets
  {
    UpstreamIsBehind(chain.composer, i);
    RollsBack(chain.composer, i, routers[i].name, c);
  }

  /** Two routers that move together, neither fitting beside the other's old contribution:
      both moves are rolled back, whatever is on record already. */
  lemma MovingTogetherRollsBack(routers: seq<Router>, inputs: seq<seq<Input>>, chain: Chain, c: Contribution,
                                d: Contribution)
    requires |routers| == |inputs| == |chain.sessions| == 2
    requires |chain.composer.contributions| == |chain.composer.answered| == 2
    requires Seated(chain, routers)
    requires var older, targets := chain.composer.contributions, chain.composer.targets;
             && Contributes(routers[0], PlanBehind(older[..0], targets), inputs[0]) == Ok(c)
             && Contributes(routers[1], PlanBehind(older[..1], targets), inputs[1]) == Ok(d)
             && !WithinBounds(Combine(older[0 := c])) && !WithinBounds(Combine(older[1 := d]))
    ensures Replaced(chain, inputs).composer.contributions == chain.composer.contributions
  {
    ReplaceOneRollsBack(chain, routers, 0, inputs[0], c);
    ReplacedOnce(chain, inputs);
    ReplaceOneRollsBack(ReplacedUpTo(chain, inputs, 1), routers, 1, inputs[1], d);
  }

  lemma ReplacedOnce(chain: Chain, inputs: seq<seq<Input>>)
    requires 0 < |inputs| == |chain.sessions| == |chain.composer.contributions| == |chain.composer.answered|
    ensures ReplacedUpTo(chain, inputs, 1) == ReplaceOne(chain, 0, inputs[0])
  {
    assert ReplacedUpTo(chain, inputs, 0) == chain;
  }

  // ----- What opening takes -----

  lemma {:induction false} NothingAdds(cs: seq<Contribution>, n: nat)
    ensures Combine(cs + seq(n, _ => NOTHING)) == Combine(cs)
  {
    var all := cs + seq(n, _ => NOTHING);
    if n == 0 {
      assert all == cs;
    } else {
      assert all[..|all| - 1] == cs + seq(n - 1, _ => NOTHING);
      NothingAdds(cs, n - 1);
      var c := Combine(cs);
      assert Joined(c, NOTHING) == c;
    }
  }

  /** The composer once the first `n` routers have contributed. */
  function Filling(cs: seq<Contribution>, targets: set<Target>, n: nat): State
    requires n <= |cs|
  {
    State(cs[..n] + seq(|cs| - n, _ => NOTHING), seq(|cs|, i => i < n), [], 0, targets)
  }

  lemma FillingAccepts(cs: seq<Contribution>, targets: set<Target>, n: nat, router: Text)
    requires n < |cs| && WithinBounds(Combine(cs))
    ensures Accepted(Filling(cs, targets, n), n, router, cs[n]) == Filling(cs, targets, n + 1)
  {
    FillingPlaces(cs, targets, n);
    FillingFits(cs, targets, n + 1);
    NoneExceeded(Merged(Filling(cs, targets, n + 1)));
  }

  lemma FillingPlaces(cs: seq<Contribution>, targets: set<Target>, n: nat)
    requires n < |cs|
    ensures Placed(Filling(cs, targets, n), n, cs[n]) == Filling(cs, targets, n + 1)
  {
    var left, right := Placed(Filling(cs, targets, n), n, cs[n]), Filling(cs, targets, n + 1);
    assert left.contributions == right.contributions && left.answered == right.answered;
  }

  lemma FillingFits(cs: seq<Contribution>, targets: set<Target>, n: nat)
    requires n <= |cs| && WithinBounds(Combine(cs))
    ensures WithinBounds(Merged(Filling(cs, targets, n)))
  {
    hide WithinBounds, Combine;
    var s := Filling(cs, targets, n);
    assert WithinBounds(Combine(s.contributions)) by {
      PrefixWithinBounds(cs, n);
      NothingAdds(cs[..n], |cs| - n);
    }
    CompleteWithinBounds(Combine(s.contributions), targets, AllAnswered(s));
  }

  ghost predicate Declared(routers: seq<Router>, inputs: seq<seq<Input>>)
    requires |routers| == |inputs|
  {
    forall i, plan :: 0 <= i < |routers| ==> routers[i].declares(plan) == Ok(|inputs[i]|)
  }

  lemma {:induction false} OpensUpTo(routers: seq<Router>, targets: set<Target>, inputs: seq<seq<Input>>,
                                     cs: seq<Contribution>, n: nat)
    requires n <= |routers| == |inputs| == |cs| && Declared(routers, inputs)
    requires Answers(routers, targets, inputs, cs, |routers|) && WithinBounds(Combine(cs))
    ensures OpenedUpTo(routers, targets, inputs, n).composer == Filling(cs, targets, n)
  {
    hide OpenNext, Filling, Fresh;
    if n == 0 {
      NothingFilled(cs, targets);
    } else {
      OpensUpTo(routers, targets, inputs, cs, n - 1);
      assert AnswersAt(routers, targets, inputs, cs, n - 1);
      OpenNextFills(OpenedUpTo(routers, targets, inputs, n - 1), routers, targets, inputs, cs, n - 1);
    }
  }

  lemma NothingFilled(cs: seq<Contribution>, targets: set<Target>)
    ensures Filling(cs, targets, 0) == Fresh(|cs|, targets)
  {
    var left, right := Filling(cs, targets, 0), Fresh(|cs|, targets);
    assert left.contributions == right.contributions && left.answered == right.answered;
  }

  lemma OpenNextFills(chain: Chain, routers: seq<Router>, targets: set<Target>, inputs: seq<seq<Input>>,
                      cs: seq<Contribution>, n: nat)
    requires n < |routers| == |inputs| == |cs| && Declared(routers, inputs) && |chain.sessions| == n
    requires AnswersAt(routers, targets, inputs, cs, n) && WithinBounds(Combine(cs))
    requires chain.composer == Filling(cs, targets, n)
    ensures OpenNext(chain, routers[n], inputs[n]).composer == Filling(cs, targets, n + 1)
  {
    UpstreamIsBehind(chain.composer, n);
    assert chain.composer.contributions[..n] == cs[..n];
    assert routers[n].declares(UpstreamPlan(chain.composer, n, 1)) == Ok(|inputs[n]|);
    FillingAccepts(cs, targets, n, routers[n].name);
  }

  /** A chain whose answers together are within bounds opens quietly on exactly those answers. */
  lemma OpensQuietly(routers: seq<Router>, targets: set<Target>, inputs: seq<seq<Input>>, cs: seq<Contribution>)
    requires |routers| == |inputs| == |cs| && Declared(routers, inputs)
    requires Answers(routers, targets, inputs, cs, |routers|) && WithinBounds(Combine(cs))
    ensures Opened(routers, targets, inputs).composer == Settled(cs, targets)
  {
    OpensUpTo(routers, targets, inputs, cs, |routers|);
    FullySettled(cs, targets);
  }

  lemma FullySettled(cs: seq<Contribution>, targets: set<Target>)
    ensures Filling(cs, targets, |cs|) == Settled(cs, targets)
  {
    assert Filling(cs, targets, |cs|).answered == Settled(cs, targets).answered;
  }

  // ----- A concrete move -----

  /** The router's `n` relays from `base` on, for every target of the request. */
  function Relays(router: Text, aims: set<Target>, base: nat, n: nat): (r: seq<Destination>)
    ensures forall d :: d in r ==> d.reason == "" && d.router == router
    ensures |Sessions(r)| == n && forall s :: s in Sessions(r) <==> base <= s < base + n
  {
    if n == 0 then
      assert Sessions([]) == {};
      []
    else
      var rest, last := Relays(router, aims, base, n - 1), Destination(base + n - 1, aims, router, "");
      assert Sessions(rest + [last]) == Sessions(rest) + {last.session} by {
        assert forall d :: d in rest + [last] <==> d in rest || d == last;
      }
      rest + [last]
  }

  function Onto(router: Text, aims: set<Target>, base: nat, n: nat): Contribution {
    Contribution(Relays(router, aims, base, n), map[], {}, [])
  }

  /** A router that asks one query and routes everything to the `n` relays its answer names. */
  function Mover(name: Text, aims: set<Target>, n: nat): Router {
    Router(name, (plan: Plan) => Ok(1),
           (plan: Plan, inputs: seq<Input>) =>
             if |inputs| == 1 then Ok(Onto(name, aims, inputs[0], n)) else Err(Refused("one snapshot expected")))
  }

  lemma MoverAnswers(name: Text, aims: set<Target>, n: nat, plan: Plan, base: nat)
    requires n <= MAX_DESTINATIONS
    ensures Contributes(Mover(name, aims, n), plan, [base]) == Ok(Onto(name, aims, base, n))
  {
    var c := Onto(name, aims, base, n);
    assert Stamped(c.destinations, name) == c.destinations by {
      assert forall i :: 0 <= i < |c.destinations| ==> c.destinations[i] in c.destinations;
    }
    NoneExceeded(c);
  }

  /** Two movers' contributions fit together exactly when their relays number at most the bound. */
  lemma PairFits(a: Text, b: Text, aims: set<Target>, x: nat, y: nat, n: nat)
    requires n <= MAX_DESTINATIONS
    ensures x == y ==> WithinBounds(Combine([Onto(a, aims, x, n), Onto(b, aims, y, n)]))
    ensures (x + n <= y || y + n <= x) && n > MAX_DESTINATIONS / 2 ==>
              !WithinBounds(Combine([Onto(a, aims, x, n), Onto(b, aims, y, n)]))
  {
    var c, d := Onto(a, aims, x, n), Onto(b, aims, y, n);
    CombinePair(c, d);
    var left, right := Sessions(c.destinations), Sessions(d.destinations);
    assert Sessions(c.destinations + d.destinations) == left + right by {
      assert forall r :: r in c.destinations + d.destinations <==> r in c.destinations || r in d.destinations;
    }
    if x == y {
      assert left == right && left + right == left;
    } else if x + n <= y || y + n <= x {
      assert left !! right && |left + right| == |left| + |right|;
    }
  }

  lemma CombinePair(c: Contribution, d: Contribution)
    requires c.coverage == d.coverage == map[] && c.unresolved == d.unresolved == {}
             && c.shortfalls == d.shortfalls == []
    ensures Combine([c, d]) == Contribution(c.destinations + d.destinations, map[], {}, [])
  {
    assert [c, d][..1] == [c] && [c][..0] == [];
    assert Combine([c]) == Joined(NOTHING, c);
    assert Combine([c, d]) == Joined(Combine([c]), d);
  }

  function Movers(a: Text, b: Text, aims: set<Target>, n: nat): seq<Router> {
    [Mover(a, aims, n), Mover(b, aims, n)]
  }

  function BothOnto(a: Text, b: Text, aims: set<Target>, base: nat, n: nat): seq<Contribution> {
    [Onto(a, aims, base, n), Onto(b, aims, base, n)]
  }

  lemma MoversOpen(a: Text, b: Text, targets: set<Target>, base: nat, n: nat)
    requires n <= MAX_DESTINATIONS
    ensures Opened(Movers(a, b, targets, n), targets, [[base], [base]]).composer
            == Settled(BothOnto(a, b, targets, base, n), targets)
  {
    var routers, inputs, cs := Movers(a, b, targets, n), [[base], [base]], BothOnto(a, b, targets, base, n);
    assert Answers(routers, targets, inputs, cs, 2) by {
      MoverAnswers(a, targets, n, PlanBehind(cs[..0], targets), base);
      MoverAnswers(b, targets, n, PlanBehind(cs[..1], targets), base);
    }
    PairFits(a, b, targets, base, base, n);
    OpensQuietly(routers, targets, inputs, cs);
  }

  lemma NeitherFits(a: Text, b: Text, targets: set<Target>, x: nat, y: nat, n: nat)
    requires MAX_DESTINATIONS / 2 < n <= MAX_DESTINATIONS && x + n <= y
    ensures var older := BothOnto(a, b, targets, x, n);
            && !WithinBounds(Combine(older[0 := Onto(a, targets, y, n)]))
            && !WithinBounds(Combine(older[1 := Onto(b, targets, y, n)]))
  {
    var older := BothOnto(a, b, targets, x, n);
    assert older[0 := Onto(a, targets, y, n)] == [Onto(a, targets, y, n), Onto(b, targets, x, n)];
    assert older[1 := Onto(b, targets, y, n)] == [Onto(a, targets, x, n), Onto(b, targets, y, n)];
    PairFits(a, b, targets, y, x, n);
    PairFits(a, b, targets, x, y, n);
  }

  /** Movers on relays from `x` on stay there when told to move to others from `y` on. */
  lemma MoversStay(a: Text, b: Text, targets: set<Target>, x: nat, y: nat, n: nat, chain: Chain)
    requires MAX_DESTINATIONS / 2 < n <= MAX_DESTINATIONS && x + n <= y
    requires Seated(chain, Movers(a, b, targets, n)) && |chain.sessions| == |chain.composer.answered| == 2
    requires chain.composer.targets == targets && chain.composer.contributions == BothOnto(a, b, targets, x, n)
    ensures Replaced(chain, [[y], [y]]).composer.contributions == BothOnto(a, b, targets, x, n)
  {
    var older := BothOnto(a, b, targets, x, n);
    MoverAnswers(a, targets, n, PlanBehind(older[..0], targets), y);
    MoverAnswers(b, targets, n, PlanBehind(older[..1], targets), y);
    NeitherFits(a, b, targets, x, y, n);
    MovingTogetherRollsBack(Movers(a, b, targets, n), [[y], [y]], chain, Onto(a, targets, y, n),
                            Onto(b, targets, y, n));
  }

  /** For any request: two routers that share `n` relays, more than half the bound, and are
      told to move to `n` others. Both chains open quietly, yet replacing leaves both routers
      on the old relays, and replacing again does too. */
  lemma MovingAwayIsStuck(a: Text, b: Text, targets: set<Target>, x: nat, y: nat, n: nat)
    requires MAX_DESTINATIONS / 2 < n <= MAX_DESTINATIONS && x + n <= y
    ensures var routers := Movers(a, b, targets, n);
            var chain := Opened(routers, targets, [[x], [x]]);
            var once := Replaced(chain, [[y], [y]]);
            && chain.composer == Settled(BothOnto(a, b, targets, x, n), targets)
            && Opened(routers, targets, [[y], [y]]).composer == Settled(BothOnto(a, b, targets, y, n), targets)
            && once.composer.contributions == BothOnto(a, b, targets, x, n)
            && Replaced(once, [[y], [y]]).composer.contributions == BothOnto(a, b, targets, x, n)
  {
    var routers := Movers(a, b, targets, n);
    hide OpenNext, ReplaceOne, BothOnto;
    MoversOpen(a, b, targets, x, n);
    MoversOpen(a, b, targets, y, n);
    var chain := Opened(routers, targets, [[x], [x]]);
    OpenSettles(routers, targets, [[x], [x]]);
    MoversStay(a, b, targets, x, y, n, chain);
    MoversStay(a, b, targets, x, y, n, Replaced(chain, [[y], [y]]));
  }
}
