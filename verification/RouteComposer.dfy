/** The composer: an ordered chain of contributions with rollback and bounded shortfall evidence. */
module RouteComposer {
  import opened Prelude
  import opened Decimals
  import opened Routing

  const MAX_COUNT: nat := 0xFFFF_FFFF_FFFF_FFFF

  function Saturated(n: nat): nat {
    if n > MAX_COUNT then MAX_COUNT else n
  }

  function Prefix<T>(s: seq<T>, n: nat): seq<T> {
    if n < |s| then s[..n] else s
  }

  function ErrorText(e: RouterError): Text {
    match e
    case Refused(reason) => "router refused work: " + reason
    case OverBound(what) => "router refused work: " + what + " exceed bound"
    case Closed => "router session closed"
  }

  function BoundedError(router: Text, e: RouterError): (r: Text)
    ensures |r| <= MAX_TEXT_BYTES
  {
    Prefix(router + ": " + ErrorText(e), MAX_TEXT_BYTES)
  }

  function Notice(discarded: nat): Text {
    "chain: " + Digits(discarded) + " further route shortfalls discarded beyond the 256-entry bound"
  }

  // ----- The composer's operations on its state -----

  datatype State = State(
    contributions: seq<Contribution>,
    answered: seq<bool>,
    shortfalls: seq<Text>,
    discarded: nat,
    targets: set<Target>)

  function Fresh(routers: nat, targets: set<Target>): State {
    State(seq(routers, _ => NOTHING), seq(routers, _ => false), [], 0, targets)
  }

  predicate AllAnswered(s: State) {
    forall a :: a in s.answered ==> a
  }

  function Recorded(s: State, shortfall: Text): State {
    if |s.shortfalls| < MAX_SHORTFALLS then s.(shortfalls := s.shortfalls + [shortfall])
    else s.(discarded := Saturated(s.discarded + 1))
  }

  function Merged(s: State): Contribution {
    CompleteTargets(Combine(s.contributions), s.targets, AllAnswered(s))
  }

  ghost predicate Aligned(s: State) {
    |s.answered| == |s.contributions|
  }

  function Placed(s: State, index: nat, c: Contribution): State
    requires index < |s.contributions| == |s.answered|
  {
    s.(contributions := s.contributions[index := c], answered := s.answered[index := true])
  }

  /** A contribution that would break a bound is rolled back and recorded instead. */
  function Accepted(s: State, index: nat, router: Text, c: Contribution): State
    requires index < |s.contributions| == |s.answered|
  {
    var over := FirstExceeded(Merged(Placed(s, index, c)));
    if over.None? then Placed(s, index, c) else Recorded(s, BoundedError(router, OverBound(over.value)))
  }

  /** At most the bound's worth of shortfalls, closing with a count of what was dropped. */
  function Reported(contributed: seq<Text>, recorded: seq<Text>, discarded: nat): seq<Text> {
    var all := contributed + recorded;
    if |all| >= MAX_SHORTFALLS then
      all[..MAX_SHORTFALLS - 1] + [Notice(Saturated(discarded + (|all| - MAX_SHORTFALLS + 1)))]
    else if discarded > 0 then all + [Notice(discarded)]
    else all
  }

  function Combined(s: State): Contribution {
    Merged(s).(shortfalls := Reported(Merged(s).shortfalls, s.shortfalls, s.discarded))
  }

  /** What the routers before `index` combine to. */
  function Upstream(s: State, index: nat): Contribution
    requires index <= |s.contributions|
  {
    CompleteTargets(Combine(s.contributions[..index]), s.targets, index >= |s.contributions| && AllAnswered(s))
  }

  function UpstreamPlan(s: State, index: nat, revision: nat): Plan
    requires index <= |s.contributions|
  {
    if WithinBounds(Upstream(s, index)) then PlanOf(revision, Upstream(s, index)) else EMPTY_PLAN
  }

  // ----- What every sequence of operations keeps -----

  /** Against the history of every shortfall ever recorded: the first ones are kept, the rest counted. */
  ghost predicate Sound(s: State, history: seq<Text>) {
    && Aligned(s) && WithinBounds(Merged(s))
    && s.shortfalls == Prefix(history, MAX_SHORTFALLS)
    && s.discarded == Saturated(|history| - |s.shortfalls|)
    && forall x :: x in history ==> |x| <= MAX_TEXT_BYTES
  }

  lemma FreshSound(routers: nat, targets: set<Target>)
    ensures Sound(Fresh(routers, targets), [])
  {
    var s := Fresh(routers, targets);
    NothingCombines(s.contributions);
    CompleteWithinBounds(Combine(s.contributions), targets, AllAnswered(s));
  }

  lemma {:induction false} NothingCombines(cs: seq<Contribution>)
    requires forall c :: c in cs ==> c == NOTHING
    ensures Combine(cs) == NOTHING
  {
    if cs != [] {
      var before, last := cs[..|cs| - 1], cs[|cs| - 1];
      assert forall c :: c in before ==> c in cs;
      NothingCombines(before);
      assert last in cs && last == NOTHING;
    }
  }

  lemma RecordedSound(s: State, history: seq<Text>, text: Text)
    requires Sound(s, history) && |text| <= MAX_TEXT_BYTES
    ensures Sound(Recorded(s, text), history + [text])
  {
    assert Merged(Recorded(s, text)) == Merged(s);
  }

  /** The recorded text an acceptance adds, if it is rolled back. */
  ghost function Evidence(s: State, index: nat, router: Text, c: Contribution): seq<Text>
    requires index < |s.contributions| == |s.answered|
  {
    var over := FirstExceeded(Merged(Placed(s, index, c)));
    if over.None? then [] else [BoundedError(router, OverBound(over.value))]
  }

  lemma AcceptedSound(s: State, history: seq<Text>, index: nat, router: Text, c: Contribution)
    requires Sound(s, history) && index < |s.contributions|
    ensures Sound(Accepted(s, index, router, c), history + Evidence(s, index, router, c))
  {
    var over := FirstExceeded(Merged(Placed(s, index, c)));
    NoneExceeded(Merged(Placed(s, index, c)));
    if over.Some? {
      RecordedSound(s, history, BoundedError(router, OverBound(over.value)));
    } else {
      assert history + [] == history;
    }
  }

  datatype Action =
    | Accept(index: nat, router: Text, contribution: Contribution)
    | Record(router: Text, error: RouterError)

  ghost predicate Follows(s: State, history: seq<Text>, a: Action, next: State, more: seq<Text>) {
    match a
    case Accept(index, router, c) =>
      && index < |s.contributions| == |s.answered|
      && next == Accepted(s, index, router, c) && more == history + Evidence(s, index, router, c)
    case Record(router, e) =>
      next == Recorded(s, BoundedError(router, e)) && more == history + [BoundedError(router, e)]
  }

  ghost predicate StepAt(states: seq<State>, histories: seq<seq<Text>>, actions: seq<Action>, i: nat)
    requires i < |actions| && |states| == |histories| == |actions| + 1
  {
    Follows(states[i], histories[i], actions[i], states[i + 1], histories[i + 1])
  }

  ghost predicate Run(routers: nat, targets: set<Target>, states: seq<State>, histories: seq<seq<Text>>,
                      actions: seq<Action>) {
    && |states| == |histories| == |actions| + 1
    && states[0] == Fresh(routers, targets) && histories[0] == []
    && forall i :: 0 <= i < |actions| ==> StepAt(states, histories, actions, i)
  }

  lemma {:induction false} RunSound(routers: nat, targets: set<Target>, states: seq<State>, histories: seq<seq<Text>>,
                                    actions: seq<Action>, i: nat)
    requires Run(routers, targets, states, histories, actions) && i < |states|
    ensures Sound(states[i], histories[i])
  {
    if i == 0 {
      FreshSound(routers, targets);
    } else {
      RunSound(routers, targets, states, histories, actions, i - 1);
      assert StepAt(states, histories, actions, i - 1);
      FollowsSound(states[i - 1], histories[i - 1], actions[i - 1], states[i], histories[i]);
    }
  }

  lemma FollowsSound(s: State, history: seq<Text>, a: Action, next: State, more: seq<Text>)
    requires Sound(s, history) && Follows(s, history, a, next, more)
    ensures Sound(next, more)
  {
    match a
    case Accept(index, router, c) => AcceptedSound(s, history, index, router, c);
    case Record(router, e) => RecordedSound(s, history, BoundedError(router, e));
  }

  lemma NoticeFits(discarded: nat)
    requires discarded <= MAX_COUNT
    ensures |Notice(discarded)| <= MAX_TEXT_BYTES
  {
    CountDigits(discarded);
  }

  lemma ReportConserves(contributed: seq<Text>, recorded: seq<Text>, discarded: nat, history: seq<Text>)
    requires recorded == Prefix(history, MAX_SHORTFALLS) && discarded == Saturated(|history| - |recorded|)
    requires |contributed| + |history| <= MAX_COUNT
    ensures var all := contributed + history;
            Reported(contributed, recorded, discarded)
            == if |all| < MAX_SHORTFALLS then all
               else all[..MAX_SHORTFALLS - 1] + [Notice(|all| - (MAX_SHORTFALLS - 1))]
  {
    if |contributed + recorded| >= MAX_SHORTFALLS {
      assert (contributed + recorded)[..MAX_SHORTFALLS - 1] == (contributed + history)[..MAX_SHORTFALLS - 1];
    }
  }

  /** After any sequence of acceptances, rollbacks and failures every shortfall, contributed
      or ever recorded, is reported as it is or counted in the closing notice. */
  lemma ShortfallsConserved(routers: nat, targets: set<Target>, states: seq<State>, histories: seq<seq<Text>>,
                            actions: seq<Action>, i: nat)
    requires Run(routers, targets, states, histories, actions) && i < |states|
    requires |Merged(states[i]).shortfalls| + |histories[i]| <= MAX_COUNT
    ensures var all := Merged(states[i]).shortfalls + histories[i];
            Combined(states[i]).shortfalls == if |all| < MAX_SHORTFALLS then all
                                              else all[..MAX_SHORTFALLS - 1] + [Notice(|all| - (MAX_SHORTFALLS - 1))]
  {
    RunSound(routers, targets, states, histories, actions, i);
    ReportConserves(Merged(states[i]).shortfalls, states[i].shortfalls, states[i].discarded, histories[i]);
  }

  lemma ReportFits(contributed: seq<Text>, recorded: seq<Text>, discarded: nat)
    requires forall x :: x in contributed ==> |x| <= MAX_TEXT_BYTES
    requires forall x :: x in recorded ==> |x| <= MAX_TEXT_BYTES
    requires discarded <= MAX_COUNT
    ensures |Reported(contributed, recorded, discarded)| <= MAX_SHORTFALLS
    ensures forall x :: x in Reported(contributed, recorded, discarded) ==> |x| <= MAX_TEXT_BYTES
  {
    var all := contributed + recorded;
    NoticeFits(discarded);
    if |all| >= MAX_SHORTFALLS {
      var notice := Notice(Saturated(discarded + (|all| - MAX_SHORTFALLS + 1)));
      NoticeFits(Saturated(discarded + (|all| - MAX_SHORTFALLS + 1)));
      FitsAppended(all[..MAX_SHORTFALLS - 1], notice);
    } else {
      FitsAppended(all, Notice(discarded));
    }
  }

  lemma FitsAppended(texts: seq<Text>, last: Text)
    requires (forall x :: x in texts ==> |x| <= MAX_TEXT_BYTES) && |last| <= MAX_TEXT_BYTES
    ensures forall x :: x in texts + [last] ==> |x| <= MAX_TEXT_BYTES
  {
  }

  lemma CombinedWithinBounds(s: State, history: seq<Text>)
    requires Sound(s, history)
    ensures WithinBounds(Combined(s)) && |Combined(s).shortfalls| <= MAX_SHORTFALLS
  {
    assert forall x :: x in s.shortfalls ==> x in history;
    ReportFits(Merged(s).shortfalls, s.shortfalls, s.discarded);
  }

  /** No upstream part of the chain exceeds a bound, so no router is shown the empty default plan. */
  lemma UpstreamWithinBounds(s: State, history: seq<Text>, index: nat)
    requires Sound(s, history) && index <= |s.contributions|
    ensures WithinBounds(Upstream(s, index))
  {
    CompleteWithinBounds(Combine(s.contributions), s.targets, AllAnswered(s));
    PrefixWithinBounds(s.contributions, index);
    CompleteWithinBounds(Combine(s.contributions[..index]), s.targets, index >= |s.contributions| && AllAnswered(s));
  }

  /** After any sequence of acceptances, rollbacks and failures the chain is within every
      bound: its own plan and every upstream plan are built from it and never refused. */
  lemma ComposerNeverRefuses(routers: nat, targets: set<Target>, states: seq<State>, histories: seq<seq<Text>>,
                             actions: seq<Action>,
                             i: nat, index: nat, revision: nat)
    requires Run(routers, targets, states, histories, actions) && i < |states| && index <= |states[i].contributions|
    ensures WithinBounds(Merged(states[i])) && WithinBounds(Combined(states[i]))
            && |Combined(states[i]).shortfalls| <= MAX_SHORTFALLS
    ensures UpstreamPlan(states[i], index, revision) == PlanOf(revision, Upstream(states[i], index))
  {
    RunSound(routers, targets, states, histories, actions, i);
    CombinedWithinBounds(states[i], histories[i]);
    UpstreamWithinBounds(states[i], histories[i], index);
  }

  // ----- The composer -----

  class Composer {
    var contributions: seq<Contribution>
    var answered: seq<bool>
    var shortfalls: seq<Text>
    var discarded: nat
    const targets: set<Target>
    ghost var history: seq<Text>

    ghost function Value(): State
      reads this
    {
      State(contributions, answered, shortfalls, discarded, targets)
    }

    ghost predicate Valid()
      reads this
    {
      Sound(Value(), history)
    }

    constructor (routers: nat, targets: set<Target>)
      ensures Valid() && Value() == Fresh(routers, targets) && history == []
    {
      contributions, answered := seq(routers, _ => NOTHING), seq(routers, _ => false);
      shortfalls, discarded, history := [], 0, [];
      this.targets := targets;
      new;
      assert Value() == Fresh(routers, targets);
      FreshSound(routers, targets);
    }

    method Record(shortfall: Text)
      requires Valid() && |shortfall| <= MAX_TEXT_BYTES
      modifies this
      ensures Valid() && Value() == Recorded(old(Value()), shortfall) && history == old(history) + [shortfall]
    {
      RecordedSound(Value(), history, shortfall);
      if |shortfalls| < MAX_SHORTFALLS {
        shortfalls := shortfalls + [shortfall];
      } else {
        discarded := if discarded == MAX_COUNT then MAX_COUNT else discarded + 1;
      }
      history := history + [shortfall];
    }

    method MergedContribution() returns (r: Contribution)
      ensures r == Merged(Value())
    {
      var combined := CombineContributions(contributions);
      r := CompleteTargets(combined, targets, forall a :: a in answered ==> a);
    }

    method Accept(index: nat, router: Text, c: Contribution)
      requires Valid() && index < |contributions|
      modifies this
      ensures Valid() && Value() == Accepted(old(Value()), index, router, c)
      ensures history == old(history) + Evidence(old(Value()), index, router, c)
    {
      ghost var before := Value();
      var previous, wasAnswered := contributions[index], answered[index];
      contributions, answered := contributions[index := c], answered[index := true];
      assert Value() == Placed(before, index, c);
      var merged := MergedContribution();
      var bounds := ValidateBounds(merged);
      if bounds.Err? {
        contributions, answered := contributions[index := previous], answered[index := wasAnswered];
        assert Value() == before;
        Record(BoundedError(router, bounds.error));
      } else {
        assert history + [] == history;
      }
    }

    method CombinedContribution() returns (r: Contribution)
      requires Valid()
      ensures r == Combined(Value()) && WithinBounds(r)
    {
      CombinedWithinBounds(Value(), history);
      r := MergedContribution();
      var all := r.shortfalls + shortfalls;
      var dropped := discarded;
      if |all| >= MAX_SHORTFALLS {
        dropped := Saturated(dropped + (|all| - MAX_SHORTFALLS + 1));
        all := all[..MAX_SHORTFALLS - 1];
      }
      if dropped > 0 {
        all := all + [Notice(dropped)];
      }
      r := r.(shortfalls := all);
    }

    /** The plan shown to the router at `index`; never the default. */
    method PlanBefore(index: nat, revision: nat) returns (r: Plan)
      requires Valid() && index <= |contributions|
      ensures r == UpstreamPlan(Value(), index, revision) && WithinBounds(Upstream(Value(), index))
    {
      UpstreamWithinBounds(Value(), history, index);
      var combined := CombineContributions(contributions[..index]);
      var upstream := CompleteTargets(combined, targets, index >= |contributions| && forall a :: a in answered ==> a);
      var plan := FromContribution(revision, upstream);
      r := if plan.Ok? then plan.value else EMPTY_PLAN;
    }

    /** The chain's own plan; never refused. */
    method FinalPlan(revision: nat) returns (r: Result<Plan, RouterError>)
      requires Valid()
      ensures r == Ok(PlanOf(revision, Combined(Value())))
    {
      var combined := CombinedContribution();
      r := FromContribution(revision, combined);
    }
  }
}
