/** What every run of admissions and expirations keeps of a bounded cache. */
module CacheRuns {
  import opened Prelude
  import opened Events
  import opened EventState
  import opened EventCache

  // ----- One admission, on the retained map -----

  function Live(events: Retained, now: Timestamp): Retained {
    map k | k in events && !IsExpired(events[k].event, now) :: events[k]
  }

  /** Whether the delivery enters the retained set, given what is live. */
  predicate Enters(live: Retained, r: RelayEvent, now: Timestamp) {
    && !IsExpired(r.event, now)
    && !(exists k :: k in live && Deletes(live[k].event, r.event))
    && (if r.event.kind == DELETION then true
        else if KeyOf(r) in live then r.occurrence.observedAt < live[KeyOf(r)].occurrence.observedAt
        else CoordinateOf(r.event).Replaceable? ==>
               forall k :: k in live && SameSlot(live[k], r) ==> IsNewer(r.event, live[k].event))
  }

  /** What an entering delivery removes. */
  function Drops(live: Retained, r: RelayEvent): set<Key> {
    if r.event.kind == DELETION then set k | k in live && Deletes(r.event, live[k].event)
    else if KeyOf(r) in live || !CoordinateOf(r.event).Replaceable? then {}
    else set k | k in live && SameSlot(live[k], r) && live[k].event.id != r.event.id
  }

  ghost predicate Keyed(events: Retained) {
    forall k :: k in events ==> KeyOf(events[k]) == k
  }

  /** A sequence lists exactly the contributions of a map. */
  ghost predicate Lists(current: seq<RelayEvent>, events: Retained) {
    && (forall k :: k in events ==> events[k] in current)
    && (forall x :: x in current ==> KeyOf(x) in events && events[KeyOf(x)] == x)
  }

  lemma ValuesList(events: Retained)
    requires Keyed(events)
    ensures Lists(Values(events), events)
  {
    forall k | k in events
      ensures events[k] in Values(events)
    {
      ValuesMember(events, events[k]);
    }
    forall x | x in Values(events)
      ensures KeyOf(x) in events && events[KeyOf(x)] == x
    {
      ValuesMember(events, x);
    }
  }

  lemma LiveList(events: Retained, now: Timestamp)
    requires Keyed(events)
    ensures Lists(Unexpired(Values(events), now), Live(events, now))
  {
    ValuesList(events);
    forall x
      ensures x in Unexpired(Values(events), now) <==> x in Values(events) && !IsExpired(x.event, now)
    {
      UnexpiredMember(Values(events), now, x);
    }
  }

  lemma ListedWhere(current: seq<RelayEvent>, events: Retained, gone: RelayEvent -> bool)
    requires Lists(current, events) && Keyed(events)
    ensures (set r | r in current && gone(r) :: KeyOf(r)) == set k | k in events && gone(events[k])
  {
    forall k | k in events && gone(events[k])
      ensures k in set r | r in current && gone(r) :: KeyOf(r)
    {
      assert events[k] in current && KeyOf(events[k]) == k;
    }
  }

  /** A listing and its map say the same things. */
  lemma ListedReading(current: seq<RelayEvent>, live: Retained, r: RelayEvent)
    requires Lists(current, live) && Keyed(live)
    ensures (exists known :: known in current && Deletes(known.event, r.event))
            <==> exists k :: k in live && Deletes(live[k].event, r.event)
    ensures FirstExact(current, KeyOf(r)) == (if KeyOf(r) in live then Some(live[KeyOf(r)]) else None)
    ensures (exists known :: known in current && SameSlot(known, r) && !IsNewer(r.event, known.event))
            <==> exists k :: k in live && SameSlot(live[k], r) && !IsNewer(r.event, live[k].event)
  {
    FirstExactMeaning(current, KeyOf(r));
    if known :| known in current && Deletes(known.event, r.event) {
      assert live[KeyOf(known)] == known;
    }
    if known :| known in current && SameSlot(known, r) && !IsNewer(r.event, known.event) {
      assert live[KeyOf(known)] == known;
    }
    if k :| k in live && Deletes(live[k].event, r.event) {
      assert live[k] in current;
    }
    if k :| k in live && SameSlot(live[k], r) && !IsNewer(r.event, live[k].event) {
      assert live[k] in current;
    }
  }

  lemma RetractListed(current: seq<RelayEvent>, live: Retained, gone: RelayEvent -> bool, cause: Cause, r: RelayEvent)
    requires Lists(current, live) && Keyed(live)
    ensures Upserts(RetractWhere(current, gone, cause) + [Upsert(r)]) == [r]
    ensures RetractedKeys(RetractWhere(current, gone, cause) + [Upsert(r)]) == set k | k in live && gone(live[k])
  {
    RetractWhereMeaning(current, gone, cause);
    ListedWhere(current, live, gone);
    UpsertsAppend(RetractWhere(current, gone, cause), [Upsert(r)]);
    SoleUpsert(r);
  }

  /** The event decision, read on the live map. */
  lemma AdmissionMeaning(current: seq<RelayEvent>, live: Retained, r: RelayEvent, now: Timestamp)
    requires Lists(current, live) && Keyed(live)
    ensures Upserts(MutationsForEvent(current, r, now)) == (if Enters(live, r, now) then [r] else [])
    ensures RetractedKeys(MutationsForEvent(current, r, now)) == (if Enters(live, r, now) then Drops(live, r) else {})
  {
    ListedReading(current, live, r);
    SoleUpsert(r);
    if Enters(live, r, now) {
      if r.event.kind == DELETION {
        RetractListed(current, live, DeletedBy(r.event), Deleted(r.event.id), r);
        assert Drops(live, r) == set k | k in live && DeletedBy(r.event)(live[k]);
      } else if KeyOf(r) !in live && CoordinateOf(r.event).Replaceable? {
        RetractListed(current, live, SupersededBy(r), Superseded(r.event.id), r);
        assert Drops(live, r) == set k | k in live && SupersededBy(r)(live[k]);
      }
    }
  }

  /** The decision is empty exactly when the delivery does not enter. */
  lemma AdmissionIsEntry(current: seq<RelayEvent>, live: Retained, r: RelayEvent, now: Timestamp)
    requires Lists(current, live) && Keyed(live)
    ensures MutationsForEvent(current, r, now) != [] <==> Enters(live, r, now)
  {
    ListedReading(current, live, r);
  }

  lemma ExpirationMeaning(events: Retained, now: Timestamp)
    requires Keyed(events)
    ensures Upserts(MutationsForExpiration(Values(events), now)) == []
    ensures events - RetractedKeys(MutationsForExpiration(Values(events), now)) == Live(events, now)
  {
    ValuesList(events);
    RetractWhereMeaning(Values(events), ExpiredAt(now), Expired);
    ListedWhere(Values(events), events, ExpiredAt(now));
  }

  /** The admission batch, read as a decision on the live map. */
  lemma AdmitMutationsMeaning(events: Retained, r: RelayEvent, now: Timestamp)
    requires Keyed(events)
    ensures var batch, live := AdmitMutations(Values(events), r, now), Live(events, now);
            && Upserts(batch) == (if Enters(live, r, now) then [r] else [])
            && events - RetractedKeys(batch) == (if Enters(live, r, now) then live - Drops(live, r) else live)
  {
    var current, live := Unexpired(Values(events), now), Live(events, now);
    var expired, admission := MutationsForExpiration(Values(events), now), MutationsForEvent(current, r, now);
    assert Upserts(expired + admission) == Upserts(expired) + Upserts(admission)
        && RetractedKeys(expired + admission) == RetractedKeys(expired) + RetractedKeys(admission) by {
      UpsertsAppend(expired, admission);
    }
    assert Upserts(expired) == [] && events - RetractedKeys(expired) == live by {
      ExpirationMeaning(events, now);
    }
    assert Upserts(admission) == (if Enters(live, r, now) then [r] else [])
        && RetractedKeys(admission) == (if Enters(live, r, now) then Drops(live, r) else {}) by {
      LiveList(events, now);
      AdmissionMeaning(current, live, r, now);
    }
    RemoveTwice(events, RetractedKeys(expired), RetractedKeys(admission));
    assert live - {} == live;
  }

  lemma RemoveTwice(events: Retained, a: set<Key>, b: set<Key>)
    ensures events - (a + b) == events - a - b
  {
  }

  // ----- The invariant -----

  /** At most one event per replaceable coordinate in each session. */
  ghost predicate OnePerCoordinate(events: Retained) {
    forall j, k :: (j in events && k in events && SameSlot(events[j], events[k])
                    && CoordinateOf(events[k].event).Replaceable?) ==> j == k
  }

  ghost predicate NothingDeleted(events: Retained) {
    forall j, k :: j in events && k in events ==> !Deletes(events[j].event, events[k].event)
  }

  /** An event id determines its signed event. */
  ghost predicate Signed(signed: EventId -> Event, events: Retained) {
    forall k :: k in events ==> events[k].event == signed(k.id)
  }

  ghost predicate Consistent(signed: EventId -> Event, events: Retained) {
    Keyed(events) && Signed(signed, events) && OnePerCoordinate(events) && NothingDeleted(events)
  }

  lemma NothingConsistent(signed: EventId -> Event)
    ensures Consistent(signed, map[])
  {
  }

  lemma SubsetConsistent(signed: EventId -> Event, events: Retained, fewer: Retained)
    requires Consistent(signed, events)
    requires forall k :: k in fewer ==> k in events && fewer[k] == events[k]
    ensures Consistent(signed, fewer)
  {
  }

  lemma EntersConsistent(signed: EventId -> Event, live: Retained, base: Retained, r: RelayEvent, now: Timestamp)
    requires Consistent(signed, live) && Enters(live, r, now) && r.event == signed(r.event.id)
    requires forall k :: k in base ==> k in live && k !in Drops(live, r) && base[k] == live[k]
    ensures Consistent(signed, base[KeyOf(r) := r])
  {
    var after := base[KeyOf(r) := r];
    forall j, k | j in after && k in after
      ensures !Deletes(after[j].event, after[k].event)
    {
      if k == KeyOf(r) && j != KeyOf(r) {
        assert j in live && after[j] == live[j];
      } else if j == KeyOf(r) && k != KeyOf(r) && r.event.kind == DELETION {
        assert k !in Drops(live, r);
      }
    }
    forall j, k | j in after && k in after && SameSlot(after[j], after[k]) && CoordinateOf(after[k].event).Replaceable?
      ensures j == k
    {
      if j != KeyOf(r) && k == KeyOf(r) {
        SlotIsFree(signed, live, base, r, now, j);
      } else if j == KeyOf(r) && k != KeyOf(r) {
        SlotIsFree(signed, live, base, r, now, k);
      }
    }
  }

  lemma SlotIsFree(signed: EventId -> Event, live: Retained, base: Retained, r: RelayEvent, now: Timestamp, j: Key)
    requires Consistent(signed, live) && Enters(live, r, now) && r.event == signed(r.event.id)
    requires j in base && j != KeyOf(r) && j in live && j !in Drops(live, r) && base[j] == live[j]
    requires CoordinateOf(r.event).Replaceable?
    ensures !SameSlot(live[j], r)
  {
    var known := live[j];
    assert j == KeyOf(known);
    if KeyOf(r) in live {
      var held := live[KeyOf(r)];
      assert held.event == r.event && KeyOf(held) == KeyOf(r);
      assert !SameSlot(known, held);
    }
  }

  /** Inserting evicts only removable events, and only to admit a deletion. */
  lemma InsertOneShape(capacity: Capacity, b: Batch, r: RelayEvent) returns (base: Retained)
    requires InsertOne(capacity, b, r).Ok?
    ensures forall k :: k in base ==> k in b.events && base[k] == b.events[k]
    ensures forall k :: k in b.events && b.events[k].event.kind == DELETION ==> k in base
    ensures var after := InsertOne(capacity, b, r).value.events;
            after == base[KeyOf(r) := r] || (KeyOf(r) in b.events && after == b.events)
  {
    base := b.events;
    if KeyOf(r) !in b.events && |b.events| >= capacity {
      VictimMeaning(b.events);
      base := b.events - {Victim(b.events).value};
    }
  }

  lemma InsertOneBounded(capacity: Capacity, b: Batch, r: RelayEvent)
    requires |b.events| <= capacity && InsertOne(capacity, b, r).Ok?
    ensures |InsertOne(capacity, b, r).value.events| <= capacity
  {
    var key := KeyOf(r);
    StoringGrows(b.events, key, r);
    if key !in b.events && |b.events| >= capacity {
      var victim := Victim(b.events).value;
      RemovingShrinks(b.events, victim);
      StoringGrows(b.events - {victim}, key, r);
    }
  }

  lemma StoringGrows(events: Retained, key: Key, r: RelayEvent)
    ensures |events[key := r]| == if key in events then |events| else |events| + 1
  {
    assert events[key := r].Keys == events.Keys + {key};
  }

  lemma RemovingShrinks(events: Retained, key: Key)
    requires key in events
    ensures |events - {key}| == |events| - 1
  {
    assert (events - {key}).Keys == events.Keys - {key};
  }

  lemma InsertOneKeeps(capacity: Capacity, signed: EventId -> Event, live: Retained, b: Batch, r: RelayEvent,
                       now: Timestamp)
    requires Consistent(signed, live) && Enters(live, r, now) && r.event == signed(r.event.id)
    requires b.events == live - Drops(live, r) && InsertOne(capacity, b, r).Ok?
    ensures Consistent(signed, InsertOne(capacity, b, r).value.events)
    ensures KeyOf(r) in InsertOne(capacity, b, r).value.events
    ensures forall k :: k in b.events && b.events[k].event.kind == DELETION ==>
                          k in InsertOne(capacity, b, r).value.events
  {
    var base := InsertOneShape(capacity, b, r);
    EntersConsistent(signed, live, base, r, now);
    SubsetConsistent(signed, live, b.events);
  }

  // ----- Steps and runs -----

  datatype Op = Admit(delivery: RelayEvent, now: Timestamp) | Expire(now: Timestamp)

  function Decide(events: Retained, op: Op): seq<Mutation> {
    match op
    case Admit(delivery, now) => AdmitMutations(Values(events), delivery, now)
    case Expire(now) => MutationsForExpiration(Values(events), now)
  }

  /** What the cache retains after an operation; a refused batch changes nothing. */
  function After(capacity: Capacity, events: Retained, op: Op): Retained {
    var batch := Apply(capacity, events, Decide(events, op));
    if batch.Ok? then batch.value.events else events
  }

  lemma StepKeyed(capacity: Capacity, events: Retained, op: Op)
    requires Keyed(events)
    ensures Keyed(After(capacity, events, op))
  {
    match op
    case Expire(now) =>
      ExpireMeaning(capacity, events, now);
    case Admit(r, now) =>
      var working := AdmitMeaning(capacity, events, r, now);
      if InsertOne(capacity, working, r).Ok? {
        var base := InsertOneShape(capacity, working, r);
      }
  }

  ghost predicate Genuine(signed: EventId -> Event, op: Op) {
    op.Admit? ==> op.delivery.event == signed(op.delivery.event.id)
  }

  lemma ExpireMeaning(capacity: Capacity, events: Retained, now: Timestamp)
    requires Keyed(events)
    ensures Apply(capacity, events, MutationsForExpiration(Values(events), now)).Ok?
    ensures After(capacity, events, Expire(now)) == Live(events, now)
  {
    ExpirationMeaning(events, now);
    RetractAllMeaning(Batch(events, [], [], []), MutationsForExpiration(Values(events), now));
  }

  /** The batch an admission applies: the working copy once its retractions are done,
      and the one insertion that follows when the delivery enters. */
  lemma AdmitMeaning(capacity: Capacity, events: Retained, r: RelayEvent, now: Timestamp) returns (working: Batch)
    requires Keyed(events)
    ensures working.events == (if Enters(Live(events, now), r, now) then Live(events, now) - Drops(Live(events, now), r)
                               else Live(events, now))
    ensures working.inserted == [] && Elements(working.removed) == events.Keys - working.events.Keys
    ensures Apply(capacity, events, AdmitMutations(Values(events), r, now))
            == (if Enters(Live(events, now), r, now) then InsertOne(capacity, working, r) else Ok(working))
  {
    var batch := AdmitMutations(Values(events), r, now);
    AdmitMutationsMeaning(events, r, now);
    working := AppliedRetractions(events, batch);
    if Enters(Live(events, now), r, now) {
      InsertAllOne(capacity, working, r);
    }
  }

  lemma AppliedRetractions(events: Retained, batch: seq<Mutation>) returns (working: Batch)
    ensures working == RetractAll(Batch(events, [], [], []), batch)
    ensures working.events == events - RetractedKeys(batch)
    ensures working.inserted == [] && Elements(working.removed) == events.Keys - working.events.Keys
  {
    working := RetractAll(Batch(events, [], [], []), batch);
    RetractAllMeaning(Batch(events, [], [], []), batch);
  }

  lemma InsertAllOne(capacity: Capacity, b: Batch, r: RelayEvent)
    ensures InsertAll(capacity, b, [r]) == InsertOne(capacity, b, r)
  {
    var next := InsertOne(capacity, b, r);
    if next.Ok? {
      assert InsertAll(capacity, next.value, [r][1..]) == Ok(next.value);
    }
  }

  lemma FewerIsSmaller(a: Retained, b: Retained)
    requires a.Keys <= b.Keys
    ensures |a| <= |b|
  {
    assert |b.Keys - a.Keys| == |b.Keys| - |a.Keys|;
  }

  lemma StepConsistent(capacity: Capacity, signed: EventId -> Event, events: Retained, op: Op)
    requires Consistent(signed, events) && Genuine(signed, op)
    ensures Consistent(signed, After(capacity, events, op))
    ensures forall k :: k in events && events[k].event.kind == DELETION && !IsExpired(events[k].event, op.now)
                        ==> k in After(capacity, events, op)
  {
    var live := Live(events, op.now);
    SubsetConsistent(signed, events, live);
    match op
    case Expire(now) =>
      ExpireMeaning(capacity, events, now);
    case Admit(r, now) =>
      var working := AdmitMeaning(capacity, events, r, now);
      if Enters(live, r, now) && InsertOne(capacity, working, r).Ok? {
        InsertOneKeeps(capacity, signed, live, working, r, now);
        forall k | k in live && live[k].event.kind == DELETION
          ensures k !in Drops(live, r)
        {
          DeletionsAreNotDropped(live, r, k);
        }
      }
  }

  lemma DeletionsAreNotDropped(live: Retained, r: RelayEvent, k: Key)
    requires k in live && live[k].event.kind == DELETION
    ensures k !in Drops(live, r)
  {
  }

  lemma StepBounded(capacity: Capacity, events: Retained, op: Op)
    requires Keyed(events) && |events| <= capacity
    ensures |After(capacity, events, op)| <= capacity
  {
    FewerIsSmaller(Live(events, op.now), events);
    match op
    case Expire(now) =>
      ExpireMeaning(capacity, events, now);
    case Admit(r, now) =>
      var working := AdmitMeaning(capacity, events, r, now);
      FewerIsSmaller(working.events, events);
      if Enters(Live(events, now), r, now) && InsertOne(capacity, working, r).Ok? {
        InsertOneBounded(capacity, working, r);
      }
  }

  /** One step: an operation on genuine events, or a refusal that changes nothing. */
  ghost predicate Follows(capacity: Capacity, signed: EventId -> Event, events: Retained, op: Op, next: Retained) {
    Genuine(signed, op) && (next == After(capacity, events, op) || next == events)
  }

  ghost predicate StepAt(capacity: Capacity, signed: EventId -> Event, run: seq<Retained>, ops: seq<Op>, i: nat)
    requires i < |ops| && |run| == |ops| + 1
  {
    Follows(capacity, signed, run[i], ops[i], run[i + 1])
  }

  ghost predicate Run(capacity: Capacity, signed: EventId -> Event, run: seq<Retained>, ops: seq<Op>) {
    && |run| == |ops| + 1 && run[0] == map[]
    && forall i :: 0 <= i < |ops| ==> StepAt(capacity, signed, run, ops, i)
  }

  lemma FollowsSound(capacity: Capacity, signed: EventId -> Event, events: Retained, op: Op, next: Retained)
    requires Consistent(signed, events) && |events| <= capacity && Follows(capacity, signed, events, op, next)
    ensures Consistent(signed, next) && |next| <= capacity
  {
    StepConsistent(capacity, signed, events, op);
    StepBounded(capacity, events, op);
  }

  lemma {:induction false} ReachableConsistent(capacity: Capacity, signed: EventId -> Event, run: seq<Retained>,
                                               ops: seq<Op>, i: nat)
    requires Run(capacity, signed, run, ops) && i < |run|
    ensures Consistent(signed, run[i]) && |run[i]| <= capacity
  {
    hide Follows, Consistent;
    if i == 0 {
      NothingConsistent(signed);
    } else {
      ReachableConsistent(capacity, signed, run, ops, i - 1);
      assert StepAt(capacity, signed, run, ops, i - 1);
      FollowsSound(capacity, signed, run[i - 1], ops[i - 1], run[i]);
    }
  }

  /** In every state reachable from the empty cache the size is bounded, each session
      holds one event per replaceable coordinate, and no retained event is deleted by a retained one. */
  lemma ReachableStatesAreSound(capacity: Capacity, signed: EventId -> Event, run: seq<Retained>, ops: seq<Op>, i: nat)
    requires Run(capacity, signed, run, ops) && i < |run|
    ensures |run[i]| <= capacity && Keyed(run[i]) && Signed(signed, run[i])
    ensures OnePerCoordinate(run[i]) && NothingDeleted(run[i])
  {
    ReachableConsistent(capacity, signed, run, ops, i);
  }

  ghost predicate KeepsDeletions(events: Retained, next: Retained) {
    forall k :: k in events && events[k].event.kind == DELETION && NeverExpires(events[k].event)
                ==> k in next && next[k].event == events[k].event
  }

  lemma StepKeepsDeletions(capacity: Capacity, signed: EventId -> Event, events: Retained, op: Op, next: Retained)
    requires Consistent(signed, events) && Follows(capacity, signed, events, op, next)
    ensures KeepsDeletions(events, next)
  {
    if next != events {
      StepConsistent(capacity, signed, events, op);
      forall k | k in events && events[k].event.kind == DELETION && NeverExpires(events[k].event)
        ensures k in next && next[k].event == events[k].event
      {
        assert !IsExpired(events[k].event, op.now);
      }
    }
  }

  lemma {:induction false} DeletionStays(run: seq<Retained>, i: nat, j: nat, key: Key)
    requires i <= j < |run| && forall n :: 0 <= n < |run| - 1 ==> KeepsDeletions(run[n], run[n + 1])
    requires key in run[i] && run[i][key].event.kind == DELETION && NeverExpires(run[i][key].event)
    ensures key in run[j] && run[j][key].event == run[i][key].event
    decreases j - i
  {
    if i < j {
      DeletionStays(run, i, j - 1, key);
      assert KeepsDeletions(run[j - 1], run[j - 1 + 1]);
    }
  }

  /** A retained deletion without an expiration stays in every later state, so nothing
      it deletes is ever retained again. */
  lemma DeletionsAreForever(capacity: Capacity, signed: EventId -> Event, run: seq<Retained>, ops: seq<Op>,
                            i: nat, j: nat, key: Key)
    requires Run(capacity, signed, run, ops) && i <= j < |run|
    requires key in run[i] && run[i][key].event.kind == DELETION && NeverExpires(run[i][key].event)
    ensures key in run[j] && run[j][key].event == run[i][key].event
    ensures forall k :: k in run[j] ==> !Deletes(run[i][key].event, run[j][k].event)
  {
    forall n | 0 <= n < |run| - 1
      ensures KeepsDeletions(run[n], run[n + 1])
    {
      ReachableConsistent(capacity, signed, run, ops, n);
      assert StepAt(capacity, signed, run, ops, n);
      StepKeepsDeletions(capacity, signed, run[n], ops[n], run[n + 1]);
    }
    DeletionStays(run, i, j, key);
    ReachableStatesAreSound(capacity, signed, run, ops, j);
  }

  /** A delivered deletion that is neither expired nor refused is retained. */
  lemma AdmittedDeletionIsRetained(capacity: Capacity, signed: EventId -> Event, events: Retained, r: RelayEvent,
                                   now: Timestamp)
    requires Consistent(signed, events) && |events| <= capacity && Genuine(signed, Admit(r, now))
    requires r.event.kind == DELETION && !IsExpired(r.event, now)
    ensures KeyOf(r) in After(capacity, events, Admit(r, now))
            || (Apply(capacity, events, Decide(events, Admit(r, now))) == Err(OnlyDeletions)
                && |Live(events, now)| >= capacity
                && forall k :: k in Live(events, now) ==> Live(events, now)[k].event.kind == DELETION)
  {
    var live := Live(events, now);
    SubsetConsistent(signed, events, live);
    FewerIsSmaller(live, events);
    var working := AdmitMeaning(capacity, events, r, now);
    assert Enters(live, r, now);
    InsertDeletion(capacity, live, working, r);
  }

  /** A deletion is refused only where nothing but deletions is retained. */
  lemma InsertDeletion(capacity: Capacity, live: Retained, working: Batch, r: RelayEvent)
    requires |live| <= capacity && working.events == live - Drops(live, r) && r.event.kind == DELETION
    ensures var inserted := InsertOne(capacity, working, r);
            || (inserted.Ok? && KeyOf(r) in inserted.value.events)
            || (inserted == Err(OnlyDeletions) && |live| >= capacity
                && forall k :: k in live ==> live[k].event.kind == DELETION)
  {
    RefusedDeletion(capacity, working, r);
    if InsertOne(capacity, working, r).Err? {
      FullMeansNothingDropped(capacity, live, working.events, r);
    }
  }

  lemma RefusedDeletion(capacity: Capacity, b: Batch, r: RelayEvent)
    requires r.event.kind == DELETION
    ensures InsertOne(capacity, b, r).Ok? ==> KeyOf(r) in InsertOne(capacity, b, r).value.events
    ensures InsertOne(capacity, b, r).Err? ==>
              && InsertOne(capacity, b, r) == Err(OnlyDeletions) && |b.events| >= capacity
              && forall k :: k in b.events ==> b.events[k].event.kind == DELETION
  {
    VictimMeaning(b.events);
  }

  lemma FullMeansNothingDropped(capacity: Capacity, live: Retained, working: Retained, r: RelayEvent)
    requires |live| <= capacity && |working| >= capacity && working == live - Drops(live, r)
    ensures working == live
  {
    assert working.Keys <= live.Keys;
    assert |live.Keys - working.Keys| == |live.Keys| - |working.Keys|;
    assert live.Keys - working.Keys == {};
  }
}
