/** The durable cache: the memory rules, mirrored into a database table before they are published. */
module DurableCache {
  import opened Prelude
  import opened Events
  import opened EventState
  import opened EventCache
  import opened CacheRuns
  import MemoryCache

  const MAX_REVISION: nat := MemoryCache.MAX_REVISION

  /** Rows under their composite event and relay key. */
  type Table = map<Key, RelayEvent>

  // ----- The table -----

  function InsertRows(table: Table, inserted: seq<RelayEvent>): Table
    decreases |inserted|
  {
    if inserted == [] then table else InsertRows(table[KeyOf(inserted[0]) := inserted[0]], inserted[1..])
  }

  function RemoveRows(table: Table, removed: seq<Key>): Table
    decreases |removed|
  {
    if removed == [] then table else RemoveRows(table - {removed[0]}, removed[1..])
  }

  /** One write transaction: every insertion, then every removal. */
  function Diffed(table: Table, inserted: seq<RelayEvent>, removed: seq<Key>): Table {
    RemoveRows(InsertRows(table, inserted), removed)
  }

  lemma {:induction false} RemoveRowsMeaning(table: Table, removed: seq<Key>)
    ensures RemoveRows(table, removed) == table - Elements(removed)
    decreases |removed|
  {
    if removed != [] {
      RemoveRowsMeaning(table - {removed[0]}, removed[1..]);
      assert Elements(removed) == {removed[0]} + Elements(removed[1..]);
    }
  }

  method ApplyDiff(table: Table, inserted: seq<RelayEvent>, removed: seq<Key>) returns (r: Table)
    ensures r == Diffed(table, inserted, removed)
  {
    r := table;
    for i := 0 to |inserted|
      invariant InsertRows(r, inserted[i..]) == InsertRows(table, inserted)
    {
      assert inserted[i..][0] == inserted[i] && inserted[i..][1..] == inserted[i + 1..];
      r := r[KeyOf(inserted[i]) := inserted[i]];
    }
    ghost var filled := r;
    for i := 0 to |removed|
      invariant RemoveRows(r, removed[i..]) == RemoveRows(filled, removed)
    {
      assert removed[i..][0] == removed[i] && removed[i..][1..] == removed[i + 1..];
      r := r - {removed[i]};
    }
  }

  /** Reads every row back, keyed by what the row itself says. */
  method Load(table: Table) returns (events: Retained)
    ensures Keyed(events)
    ensures forall k :: k in events ==> exists row :: row in table && table[row] == events[k]
    ensures forall row :: row in table ==> KeyOf(table[row]) in events
    ensures Keyed(table) ==> events == table
  {
    events := map[];
    var rows := table.Keys;
    while rows != {}
      invariant rows <= table.Keys && Keyed(events)
      invariant forall k :: k in events ==> exists row :: row in table && row !in rows && table[row] == events[k]
      invariant forall row :: row in table && row !in rows ==> KeyOf(table[row]) in events
      decreases |rows|
    {
      var row :| row in rows;
      events := events[KeyOf(table[row]) := table[row]];
      rows := rows - {row};
    }
    if Keyed(table) {
      assert events.Keys == table.Keys;
    }
  }

  // ----- One step -----

  datatype Durable = Durable(revision: nat, events: Retained, table: Table)

  /** The state after one operation, when the database commits or fails. */
  function Next(capacity: Capacity, s: Durable, op: Op, commits: bool): Durable {
    var applied := Apply(capacity, s.events, Decide(s.events, op));
    if Decide(s.events, op) == [] || applied.Err? || (applied.value.inserted == [] && applied.value.removed == [])
       || !commits
    then s
    else
      var written := Diffed(s.table, applied.value.inserted, applied.value.removed);
      if s.revision == MAX_REVISION then s.(table := written)
      else Durable(s.revision + 1, applied.value.events, written)
  }

  /** An admission inserts no key it removed: what it removes is a different signed event. */
  lemma NoKeyBothWays(signed: EventId -> Event, events: Retained, working: Retained, r: RelayEvent, now: Timestamp)
    requires Keyed(events) && Signed(signed, events) && r.event == signed(r.event.id)
    requires Enters(Live(events, now), r, now)
    requires working == Live(events, now) - Drops(Live(events, now), r)
    ensures KeyOf(r) in events ==> KeyOf(r) in working
  {
    if KeyOf(r) in events {
      assert events[KeyOf(r)].event == r.event;
      assert KeyOf(r) in Live(events, now);
      assert !Deletes(r.event, r.event);
    }
  }

  /** Inserting first and removing second reaches the same rows when the inserted key stays. */
  lemma InsertThenRemove(events: Retained, kept: Retained, gone: set<Key>, r: RelayEvent)
    requires forall k :: k in kept ==> k in events && kept[k] == events[k]
    requires gone == events.Keys - kept.Keys
    requires KeyOf(r) in events ==> KeyOf(r) in kept
    ensures events[KeyOf(r) := r] - gone == kept[KeyOf(r) := r]
  {
    assert (events[KeyOf(r) := r] - gone).Keys == kept[KeyOf(r) := r].Keys;
  }

  lemma DiffedOne(table: Table, r: RelayEvent, removed: seq<Key>)
    ensures Diffed(table, [r], removed) == table[KeyOf(r) := r] - Elements(removed)
  {
    assert InsertRows(table[KeyOf(r) := r], [r][1..]) == table[KeyOf(r) := r];
    RemoveRowsMeaning(table[KeyOf(r) := r], removed);
  }

  lemma InsertionMirrors(capacity: Capacity, events: Retained, working: Batch, r: RelayEvent)
    requires forall k :: k in working.events ==> k in events && working.events[k] == events[k]
    requires working.inserted == [] && Elements(working.removed) == events.Keys - working.events.Keys
    requires KeyOf(r) in events ==> KeyOf(r) in working.events
    requires InsertOne(capacity, working, r).Ok?
    ensures var b := InsertOne(capacity, working, r).value;
            Diffed(events, b.inserted, b.removed) == b.events
  {
    var b := InsertOne(capacity, working, r).value;
    if b == working {
      RemovalMirrors(events, b);
    } else {
      assert [] + [r] == [r];
      assert b.inserted == [r];
      DiffedOne(events, r, b.removed);
      if KeyOf(r) in working.events || |working.events| < capacity {
        InsertThenRemove(events, working.events, Elements(b.removed), r);
      } else {
        var victim := Victim(working.events).value;
        assert Elements(b.removed) == Elements(working.removed) + {victim};
        InsertThenRemove(events, working.events - {victim}, Elements(b.removed), r);
      }
    }
  }

  lemma RemovalMirrors(events: Retained, b: Batch)
    requires forall k :: k in b.events ==> k in events && b.events[k] == events[k]
    requires b.inserted == [] && Elements(b.removed) == events.Keys - b.events.Keys
    ensures Diffed(events, b.inserted, b.removed) == b.events
  {
    RemoveRowsMeaning(events, b.removed);
  }

  /** Every accepted batch writes into a mirroring table exactly what it leaves in memory. */
  lemma BatchMirrors(capacity: Capacity, signed: EventId -> Event, events: Retained, op: Op)
    requires Keyed(events) && Signed(signed, events) && Genuine(signed, op)
    requires Apply(capacity, events, Decide(events, op)).Ok?
    ensures var b := Apply(capacity, events, Decide(events, op)).value;
            Diffed(events, b.inserted, b.removed) == b.events
  {
    match op
    case Expire(now) =>
      ExpirationMeaning(events, now);
      var working := AppliedRetractions(events, MutationsForExpiration(Values(events), now));
      RemovalMirrors(events, working);
    case Admit(r, now) =>
      var working := AdmitMeaning(capacity, events, r, now);
      if Enters(Live(events, now), r, now) {
        NoKeyBothWays(signed, events, working.events, r, now);
        InsertionMirrors(capacity, events, working, r);
      } else {
        RemovalMirrors(events, working);
      }
  }

  /** Short of revision exhaustion every outcome keeps table and memory equal; at
      exhaustion they part exactly when the written batch changes what is retained. */
  lemma StepMirrors(capacity: Capacity, signed: EventId -> Event, s: Durable, op: Op, commits: bool)
    requires Keyed(s.events) && Signed(signed, s.events) && Genuine(signed, op) && s.table == s.events
             && s.revision <= MAX_REVISION
    ensures var next := Next(capacity, s, op, commits);
            next.table == next.events <==>
              (s.revision < MAX_REVISION || !commits || After(capacity, s.events, op) == s.events)
    ensures Follows(capacity, signed, s.events, op, Next(capacity, s, op, commits).events)
  {
    if Apply(capacity, s.events, Decide(s.events, op)).Ok? {
      BatchMirrors(capacity, signed, s.events, op);
    }
  }

  // ----- Runs, with reopening -----

  datatype Step = Commit(op: Op, commits: bool) | Reopen

  ghost predicate StepTo(capacity: Capacity, signed: EventId -> Event, s: Durable, step: Step, next: Durable) {
    match step
    case Commit(op, commits) => Genuine(signed, op) && next == Next(capacity, s, op, commits)
    case Reopen => next.revision == 0 && next.table == s.table && (Keyed(s.table) ==> next.events == s.table)
  }

  ghost predicate DurableRun(capacity: Capacity, signed: EventId -> Event, run: seq<Durable>, steps: seq<Step>) {
    && |run| == |steps| + 1 && run[0] == Durable(0, map[], map[])
    && forall i :: 0 <= i < |steps| ==> StepTo(capacity, signed, run[i], steps[i], run[i + 1])
  }

  lemma StepSound(capacity: Capacity, signed: EventId -> Event, s: Durable, step: Step, next: Durable)
    requires s.table == s.events && Consistent(signed, s.events) && |s.events| <= capacity
    requires s.revision < MAX_REVISION && StepTo(capacity, signed, s, step, next)
    ensures next.table == next.events && Consistent(signed, next.events) && |next.events| <= capacity
    ensures next.revision <= MAX_REVISION
  {
    if step.Commit? {
      StepMirrors(capacity, signed, s, step.op, step.commits);
      StepConsistent(capacity, signed, s.events, step.op);
      StepBounded(capacity, s.events, step.op);
    }
  }

  /** Until a revision counter is spent, in every run with database failures and reopenings
      anywhere the table is the memory, so reloading it gives back exactly the retained events,
      which keep the bound and the event-state rules. */
  lemma {:induction false} TableMirrorsMemory(capacity: Capacity, signed: EventId -> Event, run: seq<Durable>,
                                              steps: seq<Step>, i: nat)
    requires DurableRun(capacity, signed, run, steps) && i < |run|
    requires forall j :: 0 <= j < i ==> run[j].revision < MAX_REVISION
    ensures run[i].table == run[i].events && run[i].revision <= MAX_REVISION
    ensures Consistent(signed, run[i].events) && |run[i].events| <= capacity
  {
    if i > 0 {
      TableMirrorsMemory(capacity, signed, run, steps, i - 1);
      StepSound(capacity, signed, run[i - 1], steps[i - 1], run[i - 1 + 1]);
    }
  }

  /** At the last revision an admission is refused after the table took it. */
  lemma ExhaustionSplitsThem(capacity: Capacity, r: RelayEvent)
    requires NeverExpires(r.event)
    ensures var s := Durable(MAX_REVISION, map[], map[]);
            var next := Next(capacity, s, Admit(r, 0), true);
            next.events == map[] && next.table == map[KeyOf(r) := r]
  {
    var s := Durable(MAX_REVISION, map[], map[]);
    var working := AdmitMeaning(capacity, map[], r, 0);
    assert !IsExpired(r.event, 0);
    assert Live(map[], 0) == map[];
    assert Enters(map[], r, 0);
    assert working.events == map[];
    BatchMirrors(capacity, (id: EventId) => r.event, map[], Admit(r, 0));
  }

  // ----- The cache -----

  class RedbEventCache {
    const capacity: Capacity
    var revision: nat
    var events: Retained
    var retractions: seq<Retraction>
    var coverage: seq<MemoryCache.SourceCoverage>
    var table: Table

    ghost function State(): Durable
      reads this
    {
      Durable(revision, events, table)
    }

    /** Opens on whatever the table holds. */
    constructor (capacity: Capacity, stored: Table)
      ensures this.capacity == capacity && revision == 0 && table == stored && retractions == [] && coverage == []
      ensures Keyed(events) && (Keyed(stored) ==> events == stored)
    {
      var loaded := Load(stored);
      this.capacity := capacity;
      revision, events, retractions, coverage, table := 0, loaded, [], [], stored;
    }

    /** One transaction; `commits` is the database's own answer to the write. */
    method Transact(op: Op, commits: bool) returns (r: Result<nat, Refusal>)
      requires revision <= MAX_REVISION
      modifies this
      ensures State() == Next(capacity, old(State()), op, commits) && revision <= MAX_REVISION
      ensures r.Err? && r.error != RevisionExhausted ==> unchanged(this)
      ensures r == Err(RevisionExhausted) ==> old(revision) == MAX_REVISION
      ensures r.Ok? && revision != old(revision) ==>
                r.value == |Decide(old(events), op)| && events == After(capacity, old(events), op)
      ensures r.Ok? && revision == old(revision) ==> r.value == 0 && unchanged(this)
      ensures events != old(events) ==> coverage == []
    {
      hide Decide, Apply;
      var mutations := Decide(events, op);
      if mutations == [] {
        return Ok(0);
      }
      var applied := MemoryCache.ApplyBatch(capacity, events, mutations);
      if applied.Err? {
        return Err(NotApplied(applied.error));
      }
      var next := applied.value;
      if next.inserted == [] && next.removed == [] {
        return Ok(0);
      }
      if !commits {
        return Err(DatabaseFailed);
      }
      table := ApplyDiff(table, next.inserted, next.removed);
      if revision == MAX_REVISION {
        return Err(RevisionExhausted);
      }
      if next.events != events {
        coverage := [];
      }
      revision, events, retractions := revision + 1, next.events, next.retractions;
      r := Ok(|mutations|);
    }
  }
}
