# Fava: verified core

A Dafny model of the decision-making core of fava, a Nostr client engine, with
proofs of what its planner, event state, caches, cancellation tree, routing
chain, observation registry and list edits promise.

`dafny verify dfyconfig.toml` checks the whole project.

## What is modelled

**Subscription planning.** `Filters`, `Demand` and `Grouping` give NIP-01
filters a meaning and prove the merge to a fixed point exact. `Planner` is the
standard planner stage by stage; `PlanFacts`, `Conformance`, `Differential`,
`OrderFreedom` and `Session` prove it against the repository's own conformance
rules, against the one-subscription-per-demand planner, against permutation of
its input, and over whole sessions. `PlannerLoops` holds the source's loops and
the session slot as imperative code, proved equal to the specification.

**Event state, caches and evaluation.** `EventState` decides supersession,
deletion (NIP-09) and expiration (NIP-40). `EventCache`, `MemoryCache` and
`CacheRuns` are the bounded cache and its runs; `DurableCache` adds the table;
`ArrivalOrder` characterises what any log of deliveries leaves behind and exactly
when the order of arrival matters;
`Evaluator`, `EvaluatorLoops` and `Retention` are the query oracle and the proof
that answering from the cache equals answering from the log.

**Cancellation.** `Cancellation` is the token tree as atomic steps of many
threads.

**Routing.** `Routing`, `RouteComposer`, `RouteChain` and `RouteSessions` are
contributions and plans, the composer with rollback, the opened chain with
incremental replacement, and the fallback router.

**Smaller cores.** `Registry` (observations and generations),
`ContactListSize` (the NIP-02 size check against the JSON text it measures),
`SavedGroups`, `Bookmarks` and `TagEdits` (list edits and their byte formats).
`Prelude`, `Orders`, `Events`, `Decimals` and `Utf8` are shared.

## What the code does not promise

Each point has a lemma with the failing input, the exact condition under which
the promise holds, or both.

- A plan can withdraw a subscription whose demand is still requested when the
  declared filter limit is lowered under it (`Conformance.StandardPlanConforms`,
  `Conformance.LoweredLimitStrandsAnOwner`).
- Folding candidates into running subscriptions never does anything
  (`Planner.FoldIntoRunningIsIdle`).
- The retained set can depend on arrival order. It does exactly when some
  delivery is shadowed: deleted by nothing in the log, and beaten in its slot
  only by deliveries the log deletes (`ArrivalOrder.OrderMattersExactlyUnderShadow`).
  Deleting a replacement profile by its id shadows the profile it replaced
  (`ArrivalOrder.NamingByIdMakesOrderMatter`); naming coordinates only never does
  (`ArrivalOrder.NamingByCoordinateCastsNoShadow`).
- At the last revision the durable cache writes the table and then refuses
  (`DurableCache.StepMirrors`, `DurableCache.ExhaustionSplitsThem`).
- Replacing a chain's inputs agrees with opening it afresh exactly when every
  mixed chain on the way, the first routers on their new contributions and the
  others still on their old ones, is within bounds (`RouteChain.ReplaceAgreesWithOpen`).
  Two routers sharing more than half the destination bound cannot move to other
  relays by replacement, for any request (`RouteChain.MovingAwayIsStuck`).
- A relay that routing drops and later names again keeps its withdrawn state and
  stays out of the desired demand until a report changes it (`Registry.AssignDesires`,
  `Registry.ReturningRouteIsNotDesired`).
- Where the documentation speaks of settled absence contributed by a router, the
  chain ignores it: only `Covered` sets reach the combination, and absence is
  settled only when every router answered (`Routing.CombineMeaning`).

## Assumptions

- Parsing, signatures and ids are foreign: an event id determines its signed
  event, tags carry the readings of the id, coordinate and integer parsers, and
  printing then parsing a relay address or an id returns it.
- A relay URL, an event id and a public key are ordered numbers, by rank.
- The encoded request is a parameter (`Demand.Wire`): its size never shrinks
  under a merge, and canonical texts are injective and totally ordered.
- Replaceable kinds are 0, 3 and 10000 to 19999; addressable kinds are 30000 to
  39999.
- Counters are unbounded numbers with explicit bounds where the source checks
  or saturates them.
- Plan, execute and accept are one step of a session, every close succeeds, and
  opened identities are fresh.

## Model

| member | source | states |
|---|---|---|
| `Filters.CoversSound` | `crates/fava-subscriptions-standard/src/attach.rs:58-77` | containment of filters, as the attach step uses it, is sound: every event the contained filter matches the containing one matches |
| `Filters.MergeExact` | `crates/fava-subscriptions-standard/src/grouping.rs:181-231` | a merge on the sole differing axis matches an event exactly when one of its two operands does |
| `Filters.MergeCovers` | `crates/fava-subscriptions-standard/src/grouping.rs:295-320` | a merged filter contains both operands by the planner's own containment test |
| `Grouping.GroupPartitions` | `crates/fava-subscriptions-standard/src/grouping.rs:39-175` | grouping partitions its demand into sound candidates with distinct filters; before the final fold no pair admits a further merge; a declared default limit leaves exact deduplication only |
| `Grouping.GroupPreservesMeaning` | `crates/fava-subscriptions-standard/src/grouping.rs:81-231` | a candidate filter matches an event exactly when some member's own filter does; a widened member sees only events wanted under its own whole-query bounds; a filter with a limit is shared only by identical filters |
| `PlannerLoops.FoldIdentical` | `crates/fava-subscriptions-standard/src/grouping.rs:95-129` | the in-place bucket and fold loops compute the candidate list of the specification |
| `PlannerLoops.MergePairs` | `crates/fava-subscriptions-standard/src/grouping.rs:141-175` | the merge loop reaches the fixed point of the specification |
| `PlannerLoops.GroupDemand` | `crates/fava-subscriptions-standard/src/grouping.rs:39-48` | the whole grouping, run as loops, equals the specified grouping |
| `Planner.HostForMeaning` | `crates/fava-subscriptions-standard/src/attach.rs:58-77` | a demand has a host exactly when something running serves or contains it, and a subscription already serving it is preferred |
| `PlannerLoops.FindHost` | `crates/fava-subscriptions-standard/src/attach.rs:58-77` | the scan over running subscriptions finds that host |
| `PlannerLoops.AdmitDemand` | `crates/fava-subscriptions-standard/src/attach.rs:34-52` | the attach loop splits demand into what running subscriptions additionally serve and what is pending |
| `PlannerLoops.CountOwners` | `crates/fava-subscriptions-standard/src/attach.rs:84-109` | the owner loop yields exactly the running subscriptions with a requested or attached owner, with those owners |
| `PlannerLoops.RefuseDuplicates` | `crates/fava-subscriptions-standard/src/lib.rs:88-96` | finds the first repeated demand identity |
| `PlannerLoops.AdmitFilterLimits` | `crates/fava-subscriptions-standard/src/lib.rs:99-121` | separates demand within the declared filter limit from the shortfalls of the rest |
| `Planner.SplitShrinks` | `crates/fava-subscriptions-standard/src/lib.rs:131-167` | halving a candidate and regrouping each half strictly shrinks the work left, so the split loop terminates |
| `Planner.FitKeeps` | `crates/fava-subscriptions-standard/src/lib.rs:131-167` | the split-and-regroup loop loses no demand, carries only requests that fit, and refuses only single demands that do not |
| `Planner.RefusedExactly` | `crates/fava-subscriptions-standard/src/lib.rs:131-167` | a demand is reported too large exactly when its own request alone exceeds the declared bound |
| `PlannerLoops.SplitToFit` | `crates/fava-subscriptions-standard/src/lib.rs:131-167` | the work-queue loop computes the specified carried and refused candidates |
| `Planner.FoldIntoRunningIsIdle` | `crates/fava-subscriptions-standard/src/lib.rs:196-217` | no grouped candidate ever repeats a running filter: demand such a filter contains attached before grouping |
| `PlannerLoops.JoinRunning` | `crates/fava-subscriptions-standard/src/lib.rs:196-217` | the fold-into-running loop equals its specification |
| `PlannerLoops.ReportDropped` | `crates/fava-subscriptions-standard/src/lib.rs:225-248` | one shortfall per demand of every candidate past the residual budget |
| `PlanFacts.ShortfallsMeaning` | `crates/fava-subscriptions-standard/src/lib.rs:54-84` | exactly which demand a plan reports as not carried: over the filter limit, too large alone, or past the residual count |
| `PlannerLoops.PlanSession` | `crates/fava-subscriptions-standard/src/lib.rs:54-84` | the whole planner, run as loops, returns the specified plan or the duplicate refusal |
| `Conformance.CheckBuckets` | `crates/fava-subscriptions/src/conformance.rs:129-143` | passes exactly when nothing is listed twice across retain and close and everything listed there is installed |
| `Conformance.CheckFilters` | `crates/fava-subscriptions/src/conformance.rs:163-184` | passes exactly when every opened request has filters and retained ones keep theirs |
| `Conformance.CheckDemand` | `crates/fava-subscriptions/src/conformance.rs:187-219` | passes exactly when every requested demand is served or reported and none is invented |
| `Conformance.CheckRunning` | `crates/fava-subscriptions/src/conformance.rs:53-75` | passes exactly when nothing that serves requested demand is withdrawn |
| `Conformance.CheckDistinctFilters` | `crates/fava-subscriptions/src/conformance.rs:84-111` | passes exactly when nothing is opened twice or again |
| `Conformance.ValidatePlan` | `crates/fava-subscriptions/src/conformance.rs:29-44` | accepts a plan exactly when all conformance rules hold |
| `Conformance.StandardPlanConforms` | `crates/fava-subscriptions/src/conformance.rs:29-246` | for distinct demand, every declaration and every baseline, the standard plan conforms if and only if no running subscription is stranded by the filter limit |
| `Conformance.StandardPlanConformsWithinLimits` | `crates/fava-subscriptions/src/conformance.rs:29-246` | the plan conforms whenever no running subscription serves a requested demand above the declared limit |
| `Conformance.LoweredLimitStrandsAnOwner` | `crates/fava-subscriptions-standard/src/lib.rs:54-84` | a concrete lowered limit under which the plan closes a subscription whose demand is still requested |
| `OrderFreedom.PlanIgnoresOrder` | `crates/fava-subscriptions-standard/src/lib.rs:54-121` | any permutation of the demand gives the same open, retain, close and attribution and the same shortfalls as a multiset; a plan exists exactly for distinct ids |
| `Differential.DeliveryIsExact` | `crates/fava-subscriptions-testkit/src/differential.rs:195-231` | a plan whose subscriptions contain what they serve delivers each event to exactly the served demand whose own filter matches it |
| `PlannerLoops.Deliver` | `crates/fava-subscriptions-testkit/src/differential.rs:195-231` | the delivery loop computes that set |
| `PlannerLoops.AdmitPending` | `crates/fava-subscriptions-no-grouping/src/lib.rs:165-226` | the reference planner's loop over pending demand equals its specification |
| `Differential.ReferenceOnFreshSession` | `crates/fava-subscriptions-no-grouping/src/lib.rs:31-226` | on a fresh session without a subscription count the reference planner carries exactly the demand that fits and reports exactly the rest |
| `Differential.GroupingPreservesMeaning` | `crates/fava-subscriptions-testkit/src/differential.rs:45-117` | on such a session both planners report the same shortfall set, settle the same demand, and deliver every event to exactly the carried demand whose own filter matches it |
| `PlannerLoops.Slot.AttachTo` | `crates/fava-observe/src/engine.rs:300-352` | binds demand to the running subscriptions that carry it, editing owners only, and credits joiners of settled requests |
| `PlannerLoops.AcceptPlan` | `crates/fava-observe/src/plan.rs:19-61` | the two loops, over what the plan retains and over what the session named, compute the specified next baseline |
| `Session.AcceptedIsReference` | `crates/fava-subscriptions-testkit/src/scenario.rs:154-191` | whichever opens were refused, the recorded baseline equals the reference reducer's if and only if the plan keeps the filters of what goes on running |
| `Session.ConformingIsReference` | `crates/fava-observe/src/plan.rs:13-18` | every conforming plan is recorded exactly as the reference reducer says |
| `PlannerLoops.Slot.RecordInstalled` | `crates/fava-observe/src/engine.rs:575-590` | what goes on running keeps its filters, its settlement and its completeness, a request under a new name starts unsettled, and nothing is remembered of what is gone |
| `Session.RunningSubscriptionsAreImmutable` | `crates/fava-observe/src/plan.rs:19-61` | over every run of demand changes, attaches and plan executions with any refused opens, a running subscription's filters never change and it goes away only when no current demand it serves is left |
| `Session.RunningSubscriptionsAreFaithful` | `crates/fava-observe/src/plan.rs:19-61` | in every state of every run each demand is served by at most one subscription, every serving subscription covers the demand's own filter, and the next plan conforms |
| `Session.EveryStateDeliversExactly` | `crates/fava-subscriptions-testkit/src/differential.rs:195-231` | in every state of every run each event reaches exactly the served demand whose own filter matches it, however widely requests are shared |
| `CacheRuns.AdmissionMeaning` | `crates/fava-state/src/lib.rs:335-411` | the decision for one delivery, read on the retained map: whether it enters and exactly what it removes |
| `CacheRuns.AdmissionIsEntry` | `crates/fava-event-cache/src/lib.rs:70-85` | the admission answer is true exactly when the delivery enters |
| `CacheRuns.ExpireMeaning` | `crates/fava-state/src/lib.rs:415-425` | an expiration sweep never refuses and leaves exactly the events not due |
| `EventCache.VictimMeaning` | `crates/fava-event-cache-memory/src/lib.rs:118-146` | eviction takes an oldest retained event that is no deletion, and exists unless only deletions are retained |
| `MemoryCache.FindVictim` | `crates/fava-event-cache-memory/src/lib.rs:125-131` | the scan finds that victim |
| `MemoryCache.ApplyBatch` | `crates/fava-event-cache-memory/src/lib.rs:80-154` | the two loops, retractions then insertions, compute the specified batch or refusal |
| `MemoryCache.MemoryEventCache.Publish` | `crates/fava-event-cache-memory/src/lib.rs:156-170` | replaces the whole state at the next revision, or changes nothing when revisions are exhausted |
| `MemoryCache.MemoryEventCache.Transact` | `crates/fava-event-cache-memory/src/lib.rs:210-227` | commits a decided batch atomically; a refusal and an empty batch change nothing; changed events drop coverage |
| `MemoryCache.MemoryEventCache.Admit` | `crates/fava-event-cache/src/lib.rs:70-85` | answers whether the delivery entered, leaves the specified state, and a refusal leaves everything unchanged |
| `MemoryCache.MemoryEventCache.Expire` | `crates/fava-event-cache/src/lib.rs:93-95` | retracts exactly the due events |
| `MemoryCache.MemoryEventCache.RetainSourceCoverage` | `crates/fava-event-cache-memory/src/lib.rs:190-208` | keeps one fact per request within the bound, losing only a replaced fact or the oldest one |
| `CacheRuns.ReachableStatesAreSound` | `crates/fava-event-cache-memory/src/lib.rs:80-154` | in every reachable state size is within capacity, each session holds at most one event per replaceable coordinate, and nothing retained is deleted by a retained deletion |
| `CacheRuns.DeletionsAreForever` | `crates/fava-event-cache-memory/src/lib.rs:107-146` | a retained deletion without an expiration stays in every later state, so nothing it deletes is ever retained again |
| `CacheRuns.AdmittedDeletionIsRetained` | `crates/fava-event-cache-memory/src/lib.rs:118-146` | an unexpired deletion is retained unless the cache is full of deletions only |
| `ArrivalOrder.RetainsAtLeastTheKept` | `crates/fava-state/src/lib.rs:335-411` | for every log and order below capacity: what no delivery deletes or beats is retained at its earliest observation, and nothing the log deletes is retained |
| `ArrivalOrder.RetainReflects` | `crates/fava-state/src/lib.rs:335-411` | below capacity and without shadowed deliveries, retained are exactly the delivered keys that no delivery deletes or beats, each at its earliest observation |
| `ArrivalOrder.ArrivalOrderDoesNotMatter` | `crates/fava-state/src/lib.rs:221-411` | without shadowed deliveries, admitting the same deliveries in any order and multiplicity retains the same keys, events and earliest observation times |
| `ArrivalOrder.OrderMattersExactlyUnderShadow` | `crates/fava-state/src/lib.rs:335-411` | with room for the whole log, every order gives the same retained state if and only if no delivery is shadowed, with repetitions and without |
| `ArrivalOrder.NamingByCoordinateCastsNoShadow` | `crates/fava-state/src/lib.rs:221-277` | a log in which no deletion names a replaceable event by id has no shadowed delivery |
| `ArrivalOrder.NamingByIdMakesOrderMatter` | `crates/fava-state/src/lib.rs:242-251` | a concrete profile, replacement and deletion by id: the profile survives one arrival order and not another |
| `EvaluatorLoops.RelayOccurrencesForEvent` | `crates/fava-state/src/lib.rs:108-134` | one occurrence per session at its earliest time; refuses contributions of another event |
| `EvaluatorLoops.MergeSources` | `crates/fava-query-standard/src/lib.rs:28-33` | the merge loop over every source keeps exactly one candidate per qualifying event, equal to the ordered merge of its contributions |
| `EvaluatorLoops.CoordinateWinners` | `crates/fava-query-standard/src/lib.rs:152-178` | exactly the records no record outranks at their coordinate, each once |
| `EvaluatorLoops.Evaluate` | `crates/fava-query-standard/src/lib.rs:20-57` | evaluation never refuses and returns exactly the specified ordered, truncated winners |
| `Retention.OccurrencesMeaning` | `crates/fava-state/src/lib.rs:118-129` | aggregated occurrences hold exactly the sessions heard from, each at its earliest observation |
| `Retention.RetentionPreservesAnswers` | `crates/fava-query-standard/src/lib.rs:20-178` | over every log of one authority without deletions or expirations that never fills the cache, any query by author and kind gets the same ordered records, occurrences included, from the cache as from the full log |
| `DurableCache.ApplyDiff` | `crates/fava-event-cache-persistent/src/schema.rs:119-145` | writes the insertions and then the removals of one transaction |
| `DurableCache.Load` | `crates/fava-event-cache-persistent/src/schema.rs:101-117` | reads every row back under its own key; a table keyed by its rows loads as itself |
| `DurableCache.NoKeyBothWays` | `crates/fava-event-cache-persistent/src/lib.rs:104-178` | no admission inserts a key it removed |
| `DurableCache.StepMirrors` | `crates/fava-event-cache-persistent/src/lib.rs:180-198` | table and memory stay equal after an operation if and only if the revision is not spent, the database fails, or the operation changes nothing |
| `DurableCache.TableMirrorsMemory` | `crates/fava-event-cache-persistent/src/lib.rs:253-280` | in every run with database failures and reopenings the table equals the retained events, which keep the bound and the event-state rules, until a revision is spent |
| `DurableCache.ExhaustionSplitsThem` | `crates/fava-event-cache-persistent/src/lib.rs:188-193` | at the last revision an admission is refused after the table took it |
| `DurableCache.RedbEventCache.Transact` | `crates/fava-event-cache-persistent/src/lib.rs:253-280` | follows the specified step; every refusal but exhaustion changes nothing |
| `Cancellation.StepKeeps` | `crates/fava-runtime/src/cancel.rs:54-109` | every atomic step of derivations, cancels, clones and drops keeps the protocol invariant |
| `Cancellation.QuietTokensAgree` | `crates/fava-runtime/src/cancel.rs:80-109` | in every interleaving, once no derivation or cancel is mid-step, a live token is fired exactly when it or an ancestor was cancelled |
| `Cancellation.FiredOnlyOnRequest` | `crates/fava-runtime/src/cancel.rs:54-63` | at every moment whatever has fired was cancelled itself or below a cancelled token |
| `Cancellation.PruningLosesNothing` | `crates/fava-runtime/src/cancel.rs:87-98` | with no thread mid-step every live unfired child is registered with its unfired parent, whatever was pruned |
| `Routing.ValidateBounds` | `crates/fava-routing/src/chain.rs:343-378` | passes exactly when every bound holds and otherwise names the first one exceeded |
| `Routing.CombineMeaning` | `crates/fava-routing/src/chain.rs:379-403` | a target is covered by exactly the relays some router covers it with, unresolved where routers only spoke of it, and absent otherwise |
| `Routing.CombineContributions` | `crates/fava-routing/src/chain.rs:379-403` | the loops compute the specified combination |
| `Routing.PrefixWithinBounds` | `crates/fava-routing/src/chain.rs:293-301` | what an earlier part of the chain combines to is within bounds whenever the whole is |
| `Routing.FromContribution` | `crates/fava-routing/src/lib.rs:254-297` | builds the specified plan exactly when the contribution is within bounds |
| `RouteComposer.ComposerNeverRefuses` | `crates/fava-routing/src/chain.rs:244-305` | after any sequence of acceptances, rollbacks and failures the merged and combined contributions are within every bound, and every upstream plan is the real one, never the default |
| `RouteComposer.ShortfallsConserved` | `crates/fava-routing/src/chain.rs:254-292` | in every run, below saturation, every shortfall contributed or ever recorded is reported or counted in one closing notice |
| `RouteComposer.Composer.Record` | `crates/fava-routing/src/chain.rs:254-260` | keeps the first shortfalls and counts the rest |
| `RouteComposer.Composer.Accept` | `crates/fava-routing/src/chain.rs:261-269` | places a contribution, or rolls it back and records why, keeping the invariant |
| `RouteComposer.Composer.CombinedContribution` | `crates/fava-routing/src/chain.rs:280-292` | reports the merged contribution with bounded shortfall evidence |
| `RouteComposer.Composer.PlanBefore` | `crates/fava-routing/src/chain.rs:293-301` | shows a router the plan of the routers before it |
| `RouteComposer.Composer.FinalPlan` | `crates/fava-routing/src/chain.rs:302-304` | never refuses |
| `RouteChain.AnswersUnique` | `crates/fava-routing/src/chain.rs:187-217` | there is only one list of contributions in which each is its router's answer to the plan of those before it |
| `RouteChain.ReplaceAgreesWithOpen` | `crates/fava-routing/src/chain.rs:80-217` | where both chains open without failure or rollback, replacing the inputs of one ends in the composer of the other if and only if every mixed chain between them is within bounds |
| `RouteChain.ReplacementsAgreeWithOpen` | `crates/fava-routing/src/chain.rs:187-217` | after any number of such replacements the chain holds what a chain freshly opened on the last inputs holds |
| `RouteChain.OpensQuietly` | `crates/fava-routing/src/chain.rs:80-139` | a chain whose routers' answers together are within bounds opens without rollback on exactly those answers |
| `RouteChain.MovingTogetherRollsBack` | `crates/fava-routing/src/chain.rs:261-269` | two routers moving together, neither fitting beside the other's old contribution, are both rolled back, whatever is on record |
| `RouteChain.MovingAwayIsStuck` | `crates/fava-routing/src/chain.rs:187-217` | concrete routers, for any request: sharing more than half the bound of relays, they open quietly on either set and yet never move by replacement |
| `RouteSessions.ValidateNames` | `crates/fava-routing/src/chain.rs:327-342` | passes exactly when names are non-empty, bounded and distinct |
| `RouteSessions.Open` | `crates/fava-routing/src/chain.rs:80-139` | opens exactly for valid names and matching input groups, reaching the specified chain |
| `RouteSessions.OpenedChain.Replace` | `crates/fava-routing/src/chain.rs:187-217` | refuses exactly a closed chain or a changed input count, unchanged; otherwise replaces every session in order |
| `RouteSessions.FallbackFills` | `crates/fava-router-fallback-relays/src/lib.rs:54-94` | every target below the minimum ends covered by what covered it and all fallback relays; every other target keeps its coverage |
| `RouteSessions.FallbackSession.Replace` | `crates/fava-router-fallback-relays/src/lib.rs:163-183` | holds what opening afresh on the new upstream would give; unexpected inputs change nothing |
| `Registry.OneActiveGeneration` | `crates/fava-observe/src/registry.rs:119-222` | in every run a generation is active exactly when its parent records it as its active child, so there is at most one |
| `Registry.DesiredIsCurrent` | `crates/fava-observe/src/registry.rs:336-360` | desired demand comes only from installed roots and their current generations |
| `Registry.WithdrawingRemovesGenerations` | `crates/fava-observe/src/registry.rs:308-334` | withdrawing a parent leaves none of its generations |
| `Registry.GoneForGood` | `crates/fava-observe/src/registry.rs:119-160` | an identity that was minted and is gone is never installed again |
| `Registry.PublicationIsOwned` | `crates/fava-observe/src/registry.rs:202-222` | in every run only the one current generation may publish beside its public observation, and one that lost that right never has it again |
| `Registry.NestedGenerationSurvives` | `crates/fava-observe/src/registry.rs:119-160` | a generation installed under a generation outlives the root, so the root condition is needed |
| `Registry.AssignDesires` | `crates/fava-observe/src/registry.rs:244-296` | a relay is desired afterwards exactly when it is wanted, the observation is active and does not still hold it as withdrawn |
| `Registry.ReturningRouteIsNotDesired` | `crates/fava-observe/src/registry.rs:260-288` | a relay routing drops and names again stays out of the desired demand |
| `Registry.DesiredMeaning` | `crates/fava-observe/src/registry.rs:342-360` | the items desired at a relay are exactly those its demanding observations hold |
| `Registry.ObservationRegistry.InstallFor` | `crates/fava-observe/src/registry.rs:119-160` | installs under a fresh identity, or refuses a missing parent |
| `Registry.ObservationRegistry.ActivateChild` | `crates/fava-observe/src/registry.rs:163-200` | makes a matching provisional generation current and removes its predecessor |
| `Registry.ObservationRegistry.WithdrawObservation` | `crates/fava-observe/src/registry.rs:308-334` | removes an observation, its link and its generations |
| `Registry.ObservationRegistry.AssignRelays` | `crates/fava-observe/src/registry.rs:244-296` | replaces demand as specified |
| `Registry.ObservationRegistry.DesiredDemand` | `crates/fava-observe/src/registry.rs:342-360` | lists desired demand in identity order, never deduplicated |
| `ContactListSize.JsonLength` | `crates/fava-nip02/src/bounds.rs:33-43` | the fixed parts of the compact JSON object are exactly the constants the check starts from |
| `ContactListSize.CutoffIsSafe` | `crates/fava-nip02/src/bounds.rs:3-9` | an event with more tag values than the cut-off never fits the byte bound |
| `ContactListSize.AddJsonString` | `crates/fava-nip02/src/bounds.rs:71-82` | adds exactly the encoded length of a JSON string, refusing exactly when the bound is passed |
| `ContactListSize.EncodedLength` | `crates/fava-nip02/src/bounds.rs:33-69` | accepts exactly the events whose compact JSON text is at most 131072 bytes and returns that length |
| `Utf8.DecodeEncodedText` | `crates/fava-simple-groups/src/edit.rs:328-346` | strict UTF-8 decoding undoes encoding |
| `SavedGroups.DecodeUndoesEncode` | `crates/fava-simple-groups/src/edit.rs:210-385` | decoding undoes encoding for every change the public constructors build and the encoder accepts |
| `SavedGroups.EncodesExactly` | `crates/fava-simple-groups/src/edit.rs:210-280` | the encoder accepts a buildable change exactly when it names at most 65535 relays and every text fits its length prefix |
| `SavedGroups.EncodeSimpleGroup` | `crates/fava-simple-groups/src/edit.rs:248-261` | the append loop writes the specified bytes or refusal |
| `SavedGroups.TakeSimpleGroup` | `crates/fava-simple-groups/src/edit.rs:363-385` | the reading loop takes the specified group or refusal |
| `TagEdits.Apply` | `crates/fava-simple-groups/src/edit.rs:503-578` | the loop with its found set computes the specified list |
| `TagEdits.Idempotent` | `crates/fava-simple-groups/src/edit.rs:503-578` | applying an edit twice equals applying it once |
| `TagEdits.KeepsOthers` | `crates/fava-simple-groups/src/edit.rs:503-578` | tags of no selected target are kept, in order |
| `TagEdits.OnePerTarget` | `crates/fava-simple-groups/src/edit.rs:503-578` | each selected target ends with exactly one tag when its tags stay and with none otherwise |
| `SavedGroups.ApplyEdit` | `crates/fava-simple-groups/src/edit.rs:473-500` | runs a save, remove, rename or relay edit: every other tag stays in order, each selected relay ends with one entry or none, and running it again would change nothing |
| `SavedGroups.SavedListEdits` | `crates/fava-simple-groups/src/edit.rs:503-620` | saved-list edits are idempotent, keep every other tag in order, and leave one entry per selected relay on save or rename and none on removal |
| `Bookmarks.DecodeUndoesEncode` | `crates/fava-bookmarks/src/lib.rs:154-245` | decoding undoes encoding for every change the public constructors build; the encoder refuses exactly an identifier past its length prefix |
| `Bookmarks.Apply` | `crates/fava-bookmarks/src/lib.rs:347-383` | the two loops compute the specified list |
| `Bookmarks.BookmarkEdits` | `crates/fava-bookmarks/src/lib.rs:347-432` | an edit for an event or a coordinate keeps every tag not naming it in order, leaves exactly one naming it on an addition and none on a removal, and changes nothing when repeated |
| `Bookmarks.ArrangementDoesNotMatter` | `crates/fava-bookmarks/src/lib.rs:347-391` | the result depends only on the other tags, on where the first match stands among them, and on which matches there are |

## Left out

- Transport, sockets, timers, tasks, NIP-11 and NIP-05 fetching, and database internals: I/O; the database is an atomic map whose commit may fail.
- Signature and id verification, URL and key parsing: foreign code.
- Encoding failures of a request and the declared bound on subscription-id length: the encoding is a total size here.
- The publication custody loop and multi-edit sequences: the write store is not part of this model.
- Overlapping plan executions, reconnects and assignment of demand across several slots of one relay.
- Shutdown of the task runtime and the waiting side of a cancellation token.
- External `commit` batches on either cache, and reopening the durable cache with a smaller capacity.
- Chain preview and the declaration pass: the same composer without sessions.
- Router panics: they are refusals here. Truncating an error text inside a multi-byte character, which panics in the source, is not modelled; texts are measured in bytes.
- Error texts: refusals carry a reason but not the numbers printed in it.
- Live relay state, wake-ups, evidence and publication notices of the registry.
- Session accounts, diagnostics, the fetch cache, group decoders, management constructors and accessors: they would add only easy members.
- Bookmarks.ArrangementDoesNotMatter: the order of tags is any total order, because tag comparison belongs to a foreign library.
- Retention.RetentionPreservesAnswers: local contributions are added after the relay ones on both sides; other relay sources beside the cache are not modelled.
