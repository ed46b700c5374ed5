/** The bounded in-memory cache: one mutable state, replaced whole by each accepted batch. */
module MemoryCache {
  import opened Prelude
  import opened Events
  import opened Filters
  import opened EventState
  import opened EventCache
  import CacheRuns

  const MAX_REVISION: nat := 0xFFFF_FFFF_FFFF_FFFF

  /** A relay's end-of-stored-events fact for one exact filter. */
  datatype SourceCoverage = SourceCoverage(session: RelayUrl, filter: Filter, completedAt: Timestamp)

  datatype Snapshot = Snapshot(revision: nat, events: seq<RelayEvent>, retractions: seq<Retraction>)

  // ----- The batch loops -----

  /** The oldest retained event that is not a deletion. */
  method FindVictim(events: Retained) returns (victim: Option<Key>)
    ensures victim == Victim(events)
  {
    var keys := AscendingKeys(events.Keys);
    victim := None;
    for i := 0 to |keys|
      invariant victim.Some? ==> victim.value in events
      invariant Oldest(keys[i..], events, victim) == Victim(events)
    {
      var key := keys[i];
      assert key in keys && keys[i..][1..] == keys[i + 1..];
      if events[key].event.kind != DELETION && (victim.None? || OlderThan(events, key, victim.value)) {
        victim := Some(key);
      }
    }
  }

  method InsertUpsert(capacity: Capacity, b: Batch, incoming: RelayEvent) returns (r: Result<Batch, CacheError>)
    ensures r == InsertOne(capacity, b, incoming)
  {
    var key := KeyOf(incoming);
    if key in b.events {
      if incoming.occurrence.observedAt < b.events[key].occurrence.observedAt {
        return Ok(b.(events := b.events[key := incoming], inserted := b.inserted + [incoming]));
      }
      return Ok(b);
    }
    var next := b;
    if |next.events| >= capacity {
      if incoming.event.kind != DELETION {
        return Err(CapacityReached);
      }
      var victim := FindVictim(next.events);
      if victim.None? {
        return Err(OnlyDeletions);
      }
      next := next.(events := next.events - {victim.value},
                    retractions := next.retractions + [Retraction(victim.value.id, Evicted)],
                    removed := next.removed + [victim.value]);
    }
    return Ok(next.(events := next.events[key := incoming], inserted := next.inserted + [incoming]));
  }

  method InsertUpserts(capacity: Capacity, b: Batch, upserts: seq<RelayEvent>) returns (r: Result<Batch, CacheError>)
    ensures r == InsertAll(capacity, b, upserts)
  {
    var next := b;
    for j := 0 to |upserts|
      invariant InsertAll(capacity, next, upserts[j..]) == InsertAll(capacity, b, upserts)
    {
      assert upserts[j..][0] == upserts[j] && upserts[j..][1..] == upserts[j + 1..];
      var inserted := InsertUpsert(capacity, next, upserts[j]);
      if inserted.Err? {
        return inserted;
      }
      next := inserted.value;
    }
    return Ok(next);
  }

  /** Applies one batch to a working copy: every retraction first, then the insertions. */
  method ApplyBatch(capacity: Capacity, events: Retained, mutations: seq<Mutation>)
    returns (r: Result<Batch, CacheError>)
    ensures r == Apply(capacity, events, mutations)
  {
    var next := Batch(events, [], [], []);
    ghost var start := next;
    var upserts := [];
    for i := 0 to |mutations|
      invariant RetractAll(next, mutations[i..]) == RetractAll(start, mutations)
      invariant upserts + Upserts(mutations[i..]) == Upserts(mutations)
    {
      assert mutations[i..][1..] == mutations[i + 1..];
      match mutations[i] {
        case Retract(key, cause) =>
          if key in next.events {
            next := next.(events := next.events - {key},
                          retractions := next.retractions + [Retraction(key.id, cause)],
                          removed := next.removed + [key]);
          }
        case Upsert(incoming) =>
          upserts := upserts + [incoming];
      }
    }
    assert mutations[|mutations|..] == [] && upserts + [] == upserts;
    r := InsertUpserts(capacity, next, upserts);
  }

  // ----- Coverage -----

  predicate SameRequest(a: SourceCoverage, b: SourceCoverage) {
    a.session == b.session && a.filter == b.filter
  }

  ghost predicate OnePerRequest(coverage: seq<SourceCoverage>) {
    forall i, j :: 0 <= i < j < |coverage| ==> !SameRequest(coverage[i], coverage[j])
  }

  // ----- The cache -----

  class MemoryEventCache {
    const capacity: Capacity
    var revision: nat
    var events: Retained
    var retractions: seq<Retraction>
    var coverage: seq<SourceCoverage>
    var latest: Snapshot

    ghost predicate Valid()
      reads this
    {
      && revision <= MAX_REVISION && CacheRuns.Keyed(events) && |events| <= capacity
      && latest == Snapshot(revision, Values(events), retractions)
      && |coverage| <= capacity && OnePerRequest(coverage)
    }

    constructor (capacity: Capacity)
      ensures Valid() && this.capacity == capacity && revision == 0 && events == map[] && coverage == []
    {
      this.capacity := capacity;
      revision, events, retractions, coverage := 0, map[], [], [];
      latest := Snapshot(0, Values(map[]), []);
    }

    /** Replaces the whole state, unless the revision counter is spent. */
    method Publish(next: Batch) returns (r: Result<(), Refusal>)
      requires Valid() && CacheRuns.Keyed(next.events) && |next.events| <= capacity
      modifies this
      ensures Valid()
      ensures old(revision) == MAX_REVISION ==> r == Err(RevisionExhausted) && unchanged(this)
      ensures old(revision) < MAX_REVISION ==>
                && r == Ok(()) && revision == old(revision) + 1
                && events == next.events && retractions == next.retractions
                && coverage == if next.events != old(events) then [] else old(coverage)
    {
      if revision == MAX_REVISION {
        return Err(RevisionExhausted);
      }
      if next.events != events {
        coverage := [];
      }
      revision, events, retractions := revision + 1, next.events, next.retractions;
      latest := Snapshot(revision, Values(events), retractions);
      r := Ok(());
    }

    /** Admits one delivery, sweeping due expirations in the same batch. The answer is
        whether the delivery entered; a refusal leaves everything as it was. */
    method Admit(delivery: RelayEvent, now: Timestamp) returns (r: Result<bool, Refusal>)
      requires Valid()
      modifies this
      ensures Valid()
      ensures r.Ok? ==> && r.value == CacheRuns.Enters(CacheRuns.Live(old(events), now), delivery, now)
                        && events == CacheRuns.After(capacity, old(events), CacheRuns.Admit(delivery, now))
      ensures r.Err? ==> unchanged(this)
      ensures r.Err? ==> (r.error == RevisionExhausted && revision == MAX_REVISION)
                         || (r.error.NotApplied?
                             && Apply(capacity, events, AdmitMutations(Values(events), delivery, now))
                                == Err(r.error.cause))
      ensures events != old(events) ==> coverage == [] && revision == old(revision) + 1
      ensures revision == old(revision) ==> unchanged(this)
    {
      var current := Values(events);
      var admission := MutationsForEvent(Unexpired(current, now), delivery, now);
      CacheRuns.LiveList(events, now);
      CacheRuns.AdmissionIsEntry(Unexpired(current, now), CacheRuns.Live(events, now), delivery, now);
      var count := Transact(CacheRuns.Admit(delivery, now));
      r := if count.Err? then Err(count.error) else Ok(admission != []);
    }

    /** Retracts every retained event expired at `now`. */
    method Expire(now: Timestamp) returns (r: Result<nat, Refusal>)
      requires Valid()
      modifies this
      ensures Valid()
      ensures r.Ok? ==> events == CacheRuns.Live(old(events), now)
      ensures r.Err? ==> unchanged(this) && r.error == RevisionExhausted && revision == MAX_REVISION
      ensures events != old(events) ==> coverage == [] && revision == old(revision) + 1
    {
      CacheRuns.ExpireMeaning(capacity, events, now);
      r := Transact(CacheRuns.Expire(now));
    }

    /** Commits a decided batch atomically; an empty batch commits nothing. */
    method Transact(op: CacheRuns.Op) returns (r: Result<nat, Refusal>)
      requires Valid()
      modifies this
      ensures Valid()
      ensures r.Ok? ==> r.value == |CacheRuns.Decide(old(events), op)|
                        && events == CacheRuns.After(capacity, old(events), op)
      ensures r.Err? ==> unchanged(this)
      ensures r.Err? ==> (r.error == RevisionExhausted && revision == MAX_REVISION)
                         || (r.error.NotApplied?
                             && Apply(capacity, events, CacheRuns.Decide(events, op)) == Err(r.error.cause))
      ensures events != old(events) ==> coverage == [] && revision == old(revision) + 1
      ensures revision == old(revision) ==> unchanged(this)
    {
      var mutations := CacheRuns.Decide(events, op);
      if mutations == [] {
        return Ok(0);
      }
      var applied := ApplyBatch(capacity, events, mutations);
      if applied.Err? {
        return Err(NotApplied(applied.error));
      }
      CacheRuns.StepKeyed(capacity, events, op);
      CacheRuns.StepBounded(capacity, events, op);
      var published := Publish(applied.value);
      r := if published.Err? then Err(published.error) else Ok(|mutations|);
    }

    /** Keeps one coverage fact per request, dropping the oldest when full. */
    method RetainSourceCoverage(fact: SourceCoverage)
      requires Valid()
      modifies this`coverage
      ensures Valid() && fact in coverage
      ensures forall c :: c in old(coverage) && !SameRequest(c, fact) && c !in coverage
                          ==> |old(coverage)| == capacity && c == old(coverage)[0]
      ensures forall c :: c in coverage ==> c == fact || c in old(coverage)
    {
      var i := 0;
      while i < |coverage| && !SameRequest(coverage[i], fact)
        invariant i <= |coverage| && forall j :: 0 <= j < i ==> !SameRequest(coverage[j], fact)
      {
        i := i + 1;
      }
      ghost var before := coverage;
      if i < |coverage| {
        coverage := coverage[i := fact];
        assert coverage[i] == fact;
        assert forall j :: 0 <= j < |before| && j != i ==> coverage[j] == before[j];
      } else {
        if |coverage| >= capacity {
          coverage := coverage[1..];
        }
        coverage := coverage + [fact];
      }
    }
  }
}
