/** Applying mutation batches under a capacity bound, shared by the memory and the durable cache. */
module EventCache {
  import opened Prelude
  import opened Orders
  import opened Events
  import opened EventState

  type Capacity = n: nat | n > 0 witness 1

  datatype Retraction = Retraction(id: EventId, cause: Cause)

  /** Why a batch does not apply. */
  datatype CacheError = CapacityReached | OnlyDeletions

  /** Why a commit is refused. */
  datatype Refusal = NotApplied(cause: CacheError) | DatabaseFailed | RevisionExhausted

  /** A working copy: what is retained, what this batch reported, inserted and removed. */
  datatype Batch = Batch(events: Retained, retractions: seq<Retraction>, inserted: seq<RelayEvent>, removed: seq<Key>)

  // ----- Key order -----

  predicate KeyLeq(a: Key, b: Key) {
    a.id < b.id || (a.id == b.id && a.session <= b.session)
  }

  function KeyOrder(): (Key, Key) -> bool {
    (a: Key, b: Key) => KeyLeq(a, b)
  }

  lemma KeyOrderTotal()
    ensures TotalOrder(KeyOrder())
  {
    forall a, b | KeyLeq(a, b) && KeyLeq(b, a)
      ensures a == b
    {
      assert a == Key(a.id, a.session) && b == Key(b.id, b.session);
    }
  }

  function AscendingKeys(keys: set<Key>): (r: seq<Key>)
    ensures forall k :: k in r <==> k in keys
  {
    KeyOrderTotal();
    Enumerate(keys, KeyOrder())
  }

  /** Retained contributions in key order. */
  function Values(events: Retained): seq<RelayEvent> {
    var keys := AscendingKeys(events.Keys);
    seq(|keys|, i requires 0 <= i < |keys| => assert keys[i] in keys; events[keys[i]])
  }

  lemma ValuesMember(events: Retained, x: RelayEvent)
    ensures x in Values(events) <==> exists k :: k in events && events[k] == x
  {
    var keys, r := AscendingKeys(events.Keys), Values(events);
    if k :| k in events && events[k] == x {
      assert k in keys;
      var i :| 0 <= i < |keys| && keys[i] == k;
      assert r[i] == x;
    }
    if x in r {
      var i :| 0 <= i < |r| && r[i] == x;
      assert keys[i] in keys && events[keys[i]] == x;
    }
  }

  // ----- Retractions first -----

  function RetractOne(b: Batch, m: Mutation): Batch {
    if m.Retract? && m.key in b.events then
      b.(events := b.events - {m.key},
         retractions := b.retractions + [Retraction(m.key.id, m.cause)],
         removed := b.removed + [m.key])
    else b
  }

  function RetractAll(b: Batch, mutations: seq<Mutation>): Batch
    decreases |mutations|
  {
    if mutations == [] then b else RetractAll(RetractOne(b, mutations[0]), mutations[1..])
  }

  // ----- Insertions, with eviction for deletions -----

  predicate OlderThan(events: Retained, a: Key, b: Key)
    requires a in events && b in events
  {
    events[a].event.createdAt < events[b].event.createdAt
    || (events[a].event.createdAt == events[b].event.createdAt && events[a].event.id < events[b].event.id)
  }

  /** The first oldest non-deletion among keys visited in order. */
  function Oldest(keys: seq<Key>, events: Retained, best: Option<Key>): (r: Option<Key>)
    requires forall k :: k in keys ==> k in events
    requires best.Some? ==> best.value in events
    ensures r.Some? ==> r.value in events
    decreases |keys|
  {
    if keys == [] then best
    else if events[keys[0]].event.kind == DELETION then Oldest(keys[1..], events, best)
    else if best.None? || OlderThan(events, keys[0], best.value) then Oldest(keys[1..], events, Some(keys[0]))
    else Oldest(keys[1..], events, best)
  }

  function Victim(events: Retained): (r: Option<Key>)
    ensures r.Some? ==> r.value in events
  {
    Oldest(AscendingKeys(events.Keys), events, None)
  }

  function InsertOne(capacity: Capacity, b: Batch, incoming: RelayEvent): Result<Batch, CacheError> {
    var key := KeyOf(incoming);
    if key in b.events then
      (if incoming.occurrence.observedAt < b.events[key].occurrence.observedAt
       then Ok(b.(events := b.events[key := incoming], inserted := b.inserted + [incoming]))
       else Ok(b))
    else if |b.events| < capacity then
      Ok(b.(events := b.events[key := incoming], inserted := b.inserted + [incoming]))
    else if incoming.event.kind != DELETION then Err(CapacityReached)
    else
      var victim := Victim(b.events);
      if victim.None? then Err(OnlyDeletions)
      else
        Ok(Batch(
          (b.events - {victim.value})[key := incoming],
          b.retractions + [Retraction(victim.value.id, Evicted)],
          b.inserted + [incoming],
          b.removed + [victim.value]))
  }

  function InsertAll(capacity: Capacity, b: Batch, upserts: seq<RelayEvent>): Result<Batch, CacheError>
    decreases |upserts|
  {
    if upserts == [] then Ok(b)
    else
      var next := InsertOne(capacity, b, upserts[0]);
      if next.Err? then next else InsertAll(capacity, next.value, upserts[1..])
  }

  /** One batch applied to a working copy, atomically. */
  function Apply(capacity: Capacity, events: Retained, mutations: seq<Mutation>): Result<Batch, CacheError> {
    InsertAll(capacity, RetractAll(Batch(events, [], [], []), mutations), Upserts(mutations))
  }

  lemma {:induction false} RetractAllMeaning(b: Batch, mutations: seq<Mutation>)
    ensures RetractAll(b, mutations).events == b.events - RetractedKeys(mutations)
    ensures RetractAll(b, mutations).inserted == b.inserted
    ensures Elements(RetractAll(b, mutations).removed)
            == Elements(b.removed) + (RetractedKeys(mutations) * b.events.Keys)
    decreases |mutations|
  {
    if mutations != [] {
      var m := mutations[0];
      var next := RetractOne(b, m);
      RetractAllMeaning(next, mutations[1..]);
      assert RetractedKeys(mutations) == (if m.Retract? then {m.key} else {}) + RetractedKeys(mutations[1..]) by {
        assert mutations == [m] + mutations[1..];
        UpsertsAppend([m], mutations[1..]);
      }
      if m.Retract? && m.key in b.events {
        assert Elements(b.removed + [m.key]) == Elements(b.removed) + {m.key};
      }
    }
  }

  // ----- The eviction victim -----

  ghost predicate Removable(events: Retained, k: Key) {
    k in events && events[k].event.kind != DELETION
  }

  /** The best seen so far: a removable event older than which nothing removable was seen. */
  ghost predicate OldestAmong(keys: seq<Key>, events: Retained, best: Option<Key>) {
    && (best.None? ==> forall k :: k in keys ==> !Removable(events, k))
    && (best.Some? ==> Removable(events, best.value)
                       && forall k :: k in keys && Removable(events, k) ==> !OlderThan(events, k, best.value))
  }

  lemma OldestStep(seen: seq<Key>, k: Key, events: Retained, best: Option<Key>)
    requires k in events && OldestAmong(seen, events, best)
    ensures OldestAmong(seen + [k], events,
              if events[k].event.kind != DELETION && (best.None? || OlderThan(events, k, best.value))
              then Some(k) else best)
  {
    assert forall x :: x in seen + [k] <==> x in seen || x == k;
  }

  lemma {:induction false} OldestMeaning(seen: seq<Key>, keys: seq<Key>, events: Retained, best: Option<Key>)
    requires (forall k :: k in keys ==> k in events) && OldestAmong(seen, events, best)
    ensures OldestAmong(seen + keys, events, Oldest(keys, events, best))
    decreases |keys|
  {
    if keys == [] {
      assert seen + keys == seen;
    } else {
      var k := keys[0];
      var older := events[k].event.kind != DELETION && (best.None? || OlderThan(events, k, best.value));
      var next := if older then Some(k) else best;
      OldestStep(seen, k, events, best);
      OldestMeaning(seen + [k], keys[1..], events, next);
      assert seen + [k] + keys[1..] == seen + keys;
    }
  }

  /** Eviction takes an oldest retained event that is not a deletion, and there is
      one unless only deletions are retained. */
  lemma VictimMeaning(events: Retained)
    ensures Victim(events).None? <==> forall k :: k in events ==> events[k].event.kind == DELETION
    ensures Victim(events).Some? ==>
              && Removable(events, Victim(events).value)
              && forall k :: Removable(events, k) ==> !OlderThan(events, k, Victim(events).value)
  {
    var keys := AscendingKeys(events.Keys);
    OldestMeaning([], keys, events, None);
    assert [] + keys == keys;
  }
}
