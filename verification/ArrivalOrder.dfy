/** When the retained state is a function of what was delivered, and not of the order it arrived in. */
module ArrivalOrder {
  import opened Prelude
  import opened Events
  import opened EventState
  import opened EventCache
  import opened CacheRuns

  type Log = set<RelayEvent>

  // ----- What a log of deliveries should leave behind -----

  ghost predicate Delivered(log: Log, k: Key) {
    exists x :: x in log && KeyOf(x) == k
  }

  ghost predicate DeletedIn(log: Log, e: Event) {
    exists d :: d in log && Deletes(d.event, e)
  }

  /** A delivery in the same session and replaceable coordinate that wins over `e`. */
  ghost predicate Beats(x: RelayEvent, session: RelayUrl, e: Event) {
    && x.occurrence.session == session && CoordinateOf(x.event) == CoordinateOf(e) && CoordinateOf(e).Replaceable?
    && IsNewer(x.event, e)
  }

  ghost predicate BeatenIn(log: Log, session: RelayUrl, e: Event) {
    exists x :: x in log && Beats(x, session, e)
  }

  /** Delivered, deleted by no delivery, beaten by none. */
  ghost predicate Kept(signed: EventId -> Event, log: Log, k: Key) {
    Delivered(log, k) && !DeletedIn(log, signed(k.id)) && !BeatenIn(log, k.session, signed(k.id))
  }

  ghost predicate Earliest(log: Log, k: Key, t: Timestamp) {
    && (exists x :: x in log && KeyOf(x) == k && x.occurrence.observedAt == t)
    && (forall x :: x in log && KeyOf(x) == k ==> t <= x.occurrence.observedAt)
  }

  /** Retained are exactly the kept keys, each with its earliest observation. */
  ghost predicate Reflects(signed: EventId -> Event, log: Log, events: Retained) {
    && Keyed(events) && Signed(signed, events)
    && (forall k :: k in events <==> Kept(signed, log, k))
    && (forall k :: k in events ==> Earliest(log, k, events[k].occurrence.observedAt))
  }

  /** Genuine deliveries without expirations. */
  ghost predicate Lasting(signed: EventId -> Event, log: Log) {
    forall x :: x in log ==> x.event == signed(x.event.id) && NeverExpires(x.event)
  }

  /** A delivery nothing deletes, beaten only by deliveries that are deleted themselves. */
  ghost predicate Shadowed(log: Log, y: RelayEvent) {
    && y in log && !DeletedIn(log, y.event) && BeatenIn(log, y.occurrence.session, y.event)
    && forall x :: x in log && Beats(x, y.occurrence.session, y.event) ==> DeletedIn(log, x.event)
  }

  ghost predicate Unshadowed(log: Log) {
    forall y :: y in log ==> !Shadowed(log, y)
  }

  // ----- Winners -----

  /** Among the deliveries that beat `e`, one is beaten by nothing. */
  lemma {:induction false} Champion(log: Log, session: RelayUrl, e: Event) returns (w: RelayEvent)
    requires BeatenIn(log, session, e)
    ensures w in log && Beats(w, session, e) && !BeatenIn(log, session, w.event)
  {
    w :| w in log && Beats(w, session, e);
    if BeatenIn(log, session, w.event) {
      var rest := log - {w};
      var x :| x in log && Beats(x, session, w.event);
      IsNewerStrict(x.event, w.event, e);
      assert x in rest && Beats(x, session, e);
      var c := Champion(rest, session, e);
      assert !Beats(x, session, c.event);
      IsNewerStrict(x.event, w.event, c.event);
      w := c;
    }
  }

  /** Without shadows, whatever beats an event the log does not delete, some kept delivery beats it too. */
  lemma KeptChampion(signed: EventId -> Event, log: Log, y: RelayEvent) returns (w: RelayEvent)
    requires Lasting(signed, log) && Unshadowed(log)
    requires y in log && !DeletedIn(log, y.event) && BeatenIn(log, y.occurrence.session, y.event)
    ensures w in log && Beats(w, y.occurrence.session, y.event) && Kept(signed, log, KeyOf(w))
  {
    var standing := set x | x in log && !DeletedIn(log, x.event);
    assert !Shadowed(log, y);
    w := Champion(standing, y.occurrence.session, y.event);
    assert !Shadowed(log, w);
  }

  /** A log in which no deletion names a replaceable event by id casts no shadow. */
  lemma NamingByCoordinateCastsNoShadow(log: Log)
    requires forall d, x :: d in log && x in log && d.event.kind == DELETION && CoordinateOf(x.event).Replaceable?
                            ==> !NamesEvent(d.event, x.event.id)
    ensures Unshadowed(log)
  {
    forall y | y in log && BeatenIn(log, y.occurrence.session, y.event)
      ensures !Shadowed(log, y)
    {
      var x :| x in log && Beats(x, y.occurrence.session, y.event);
      if d :| d in log && Deletes(d.event, x.event) {
        DeletionReachesBack(d.event, x.event, y.event);
      }
    }
  }

  // ----- One delivery more -----

  /** The delivery stored, unless an earlier observation of it is there. */
  function Stored(working: Retained, r: RelayEvent): Retained {
    if KeyOf(r) in working && r.occurrence.observedAt >= working[KeyOf(r)].occurrence.observedAt
    then working else working[KeyOf(r) := r]
  }

  lemma InsertWithRoom(capacity: Capacity, b: Batch, r: RelayEvent)
    requires |b.events| < capacity
    ensures InsertOne(capacity, b, r).Ok?
    ensures InsertOne(capacity, b, r).value.events == Stored(b.events, r)
  {
  }

  /** Nothing retained falls due, and there is room for one more. */
  ghost predicate Roomy(capacity: Capacity, events: Retained) {
    Keyed(events) && |events| < capacity && forall k :: k in events ==> NeverExpires(events[k].event)
  }

  lemma AdmitWithRoom(capacity: Capacity, events: Retained, r: RelayEvent, now: Timestamp)
    requires Roomy(capacity, events)
    ensures After(capacity, events, Admit(r, now))
            == if Enters(events, r, now) then Stored(events - Drops(events, r), r) else events
  {
    assert Live(events, now) == events;
    var working := AdmitMeaning(capacity, events, r, now);
    FewerIsSmaller(working.events, events);
    InsertWithRoom(capacity, working, r);
  }

  /** Deliveries seen so far, all of the log: what is retained was seen, and every seen
      delivery the whole log keeps is retained at its earliest observation so far. */
  ghost predicate Tracks(signed: EventId -> Event, log: Log, seen: Log, events: Retained) {
    && seen <= log && Consistent(signed, events)
    && (forall k :: k in events ==> Delivered(seen, k))
    && (forall k :: Delivered(seen, k) && Kept(signed, log, k)
                    ==> k in events && Earliest(seen, k, events[k].occurrence.observedAt))
  }

  ghost function SeenDelivery(signed: EventId -> Event, log: Log, seen: Log, events: Retained, k: Key): (x: RelayEvent)
    requires Lasting(signed, log) && Tracks(signed, log, seen, events) && k in events
    ensures x in seen && KeyOf(x) == k && x.event == events[k].event && NeverExpires(x.event)
  {
    assert Delivered(seen, k);
    var x :| x in seen && KeyOf(x) == k;
    x
  }

  lemma TracksRoomy(capacity: Capacity, signed: EventId -> Event, log: Log, seen: Log, events: Retained)
    requires Lasting(signed, log) && Tracks(signed, log, seen, events) && |events| < capacity
    ensures Roomy(capacity, events)
  {
    forall k | k in events
      ensures NeverExpires(events[k].event)
    {
      var x := SeenDelivery(signed, log, seen, events, k);
    }
  }

  /** Nothing retained deletes a delivery the log does not delete. */
  lemma NotDeletedByRetained(signed: EventId -> Event, log: Log, seen: Log, events: Retained, e: Event, j: Key)
    requires Lasting(signed, log) && Tracks(signed, log, seen, events) && !DeletedIn(log, e) && j in events
    ensures !Deletes(events[j].event, e)
  {
    var x := SeenDelivery(signed, log, seen, events, j);
    assert x in log;
  }

  /** A delivery of a kept key enters, unless it was observed as early before. */
  lemma KeptEnters(signed: EventId -> Event, log: Log, seen: Log, events: Retained, r: RelayEvent, now: Timestamp)
    requires Lasting(signed, log) && Tracks(signed, log, seen, events) && r in log && Kept(signed, log, KeyOf(r))
    ensures Enters(events, r, now)
            || (KeyOf(r) in events && events[KeyOf(r)].occurrence.observedAt <= r.occurrence.observedAt)
  {
    forall j | j in events
      ensures !Deletes(events[j].event, r.event)
    {
      NotDeletedByRetained(signed, log, seen, events, r.event, j);
    }
    forall j | j in events && j != KeyOf(r) && SameSlot(events[j], r) && CoordinateOf(r.event).Replaceable?
      ensures IsNewer(r.event, events[j].event)
    {
      var x := SeenDelivery(signed, log, seen, events, j);
      IsNewerStrict(r.event, x.event, r.event);
      assert !Beats(x, r.occurrence.session, r.event);
    }
  }

  /** A kept key is dropped by no delivery of the log. */
  lemma KeptIsNotDropped(signed: EventId -> Event, log: Log, events: Retained, r: RelayEvent, now: Timestamp, k: Key)
    requires Lasting(signed, log) && r in log && Consistent(signed, events) && Enters(events, r, now)
    requires k in events && Kept(signed, log, k)
    ensures k !in Drops(events, r)
  {
    var y :| y in log && KeyOf(y) == k;
    UnbeatenIsNotDropped(signed, events, y, r, now);
  }

  lemma EarliestNow(seen: Log, events: Retained, r: RelayEvent, k: Key, t: Timestamp)
    requires k in events ==> Earliest(seen, k, events[k].occurrence.observedAt)
    requires k != KeyOf(r) ==> k in events && t == events[k].occurrence.observedAt
    requires k == KeyOf(r) && k in events ==>
               t == if r.occurrence.observedAt < events[k].occurrence.observedAt
                    then r.occurrence.observedAt else events[k].occurrence.observedAt
    requires k == KeyOf(r) && k !in events ==> t == r.occurrence.observedAt && !Delivered(seen, k)
    ensures Earliest(seen + {r}, k, t)
  {
    if k in events {
      var x :| x in seen && KeyOf(x) == k && x.occurrence.observedAt == events[k].occurrence.observedAt;
      assert x in seen + {r};
    }
    assert r in seen + {r};
  }

  lemma KeptStays(capacity: Capacity, signed: EventId -> Event, log: Log, seen: Log, events: Retained,
                  r: RelayEvent, now: Timestamp, k: Key)
    requires Lasting(signed, log) && Tracks(signed, log, seen, events) && |events| < capacity && r in log
    requires Kept(signed, log, k) && Delivered(seen + {r}, k)
    ensures var after := After(capacity, events, Admit(r, now));
            k in after && Earliest(seen + {r}, k, after[k].occurrence.observedAt)
  {
    TracksRoomy(capacity, signed, log, seen, events);
    AdmitWithRoom(capacity, events, r, now);
    if k == KeyOf(r) {
      KeptEnters(signed, log, seen, events, r, now);
    } else {
      assert Delivered(seen, k);
    }
    if Enters(events, r, now) && k in events {
      KeptIsNotDropped(signed, log, events, r, now, k);
    }
    StaysEarliest(seen, events, After(capacity, events, Admit(r, now)), r, now, k);
  }

  lemma StaysEarliest(seen: Log, events: Retained, after: Retained, r: RelayEvent, now: Timestamp, k: Key)
    requires after == if Enters(events, r, now) then Stored(events - Drops(events, r), r) else events
    requires k in events ==> Earliest(seen, k, events[k].occurrence.observedAt)
    requires k in events && Enters(events, r, now) ==> k !in Drops(events, r)
    requires k !in events ==> !Delivered(seen, k) && k == KeyOf(r) && Enters(events, r, now)
    requires k == KeyOf(r) && !Enters(events, r, now) ==> events[k].occurrence.observedAt <= r.occurrence.observedAt
    ensures k in after && Earliest(seen + {r}, k, after[k].occurrence.observedAt)
  {
    EarliestNow(seen, events, r, k, after[k].occurrence.observedAt);
  }

  /** What is retained after an admission was retained before, or is the delivery itself. */
  lemma StepHolds(capacity: Capacity, events: Retained, r: RelayEvent, now: Timestamp, k: Key)
    requires Keyed(events) && k in After(capacity, events, Admit(r, now))
    ensures After(capacity, events, Admit(r, now))[k] == r
            || (k in events && After(capacity, events, Admit(r, now))[k] == events[k])
  {
    var working := AdmitMeaning(capacity, events, r, now);
    if InsertOne(capacity, working, r).Ok? {
      var base := InsertOneShape(capacity, working, r);
    }
  }

  lemma StepTracks(capacity: Capacity, signed: EventId -> Event, log: Log, seen: Log, events: Retained, a: Arrival)
    requires Lasting(signed, log) && Tracks(signed, log, seen, events) && |events| < capacity && a.delivery in log
    ensures Tracks(signed, log, seen + {a.delivery}, After(capacity, events, Admit(a.delivery, a.now)))
  {
    var r, after := a.delivery, After(capacity, events, Admit(a.delivery, a.now));
    StepConsistent(capacity, signed, events, Admit(r, a.now));
    forall k | k in after
      ensures Delivered(seen + {r}, k)
    {
      StepHolds(capacity, events, r, a.now, k);
      var x := if after[k] == r then r else SeenDelivery(signed, log, seen, events, k);
      assert x in seen + {r} && KeyOf(x) == k;
    }
    forall k | Delivered(seen + {r}, k) && Kept(signed, log, k)
      ensures k in after && Earliest(seen + {r}, k, after[k].occurrence.observedAt)
    {
      KeptStays(capacity, signed, log, seen, events, r, a.now, k);
    }
  }

  // ----- Whole logs -----

  datatype Arrival = Arrival(delivery: RelayEvent, now: Timestamp)

  ghost function LogOf(arrivals: seq<Arrival>): Log {
    set a | a in arrivals :: a.delivery
  }

  /** The cache after admitting the arrivals one by one, from empty. */
  function Retain(capacity: Capacity, arrivals: seq<Arrival>): Retained {
    if arrivals == [] then map[]
    else
      var last := arrivals[|arrivals| - 1];
      After(capacity, Retain(capacity, arrivals[..|arrivals| - 1]), Admit(last.delivery, last.now))
  }

  /** There is room before every admission. */
  ghost predicate NeverFull(capacity: Capacity, arrivals: seq<Arrival>) {
    arrivals != [] ==>
      var before := arrivals[..|arrivals| - 1];
      |Retain(capacity, before)| < capacity && NeverFull(capacity, before)
  }

  lemma RetainLast(capacity: Capacity, before: seq<Arrival>, last: Arrival)
    ensures Retain(capacity, before + [last])
            == After(capacity, Retain(capacity, before), Admit(last.delivery, last.now))
    ensures LogOf(before + [last]) == LogOf(before) + {last.delivery}
  {
    assert (before + [last])[..|before|] == before;
    assert forall a :: a in before + [last] <==> a in before || a == last;
  }

  lemma RoomBefore(capacity: Capacity, before: seq<Arrival>, last: Arrival)
    ensures NeverFull(capacity, before + [last])
            <==> |Retain(capacity, before)| < capacity && NeverFull(capacity, before)
  {
    assert (before + [last])[..|before|] == before;
  }

  /** What each further arrival keeps, all of them keep. */
  lemma {:induction false} Onward(kept: seq<Arrival> -> bool, before: seq<Arrival>, more: seq<Arrival>)
    requires kept(before)
    requires forall n :: 0 <= n < |more| && kept(before + more[..n]) ==> kept(before + more[..n] + [more[n]])
    ensures kept(before + more)
  {
    if more == [] {
      assert before + more == before;
    } else {
      var n := |more| - 1;
      forall i | 0 <= i < n && kept(before + more[..n][..i])
        ensures kept(before + more[..n][..i] + [more[..n][i]])
      {
        assert more[..n][..i] == more[..i];
      }
      Onward(kept, before, more[..n]);
      assert before + more == before + more[..n] + [more[n]];
    }
  }

  lemma RetainTracksOnce(capacity: Capacity, signed: EventId -> Event, log: Log, before: seq<Arrival>, last: Arrival)
    requires Lasting(signed, log) && last.delivery in log && |Retain(capacity, before)| < capacity
    requires Tracks(signed, log, LogOf(before), Retain(capacity, before))
    ensures Tracks(signed, log, LogOf(before + [last]), Retain(capacity, before + [last]))
  {
    RetainLast(capacity, before, last);
    StepTracks(capacity, signed, log, LogOf(before), Retain(capacity, before), last);
  }

  lemma RetainTracks(capacity: Capacity, signed: EventId -> Event, log: Log, arrivals: seq<Arrival>)
    requires Lasting(signed, log) && LogOf(arrivals) <= log && NeverFull(capacity, arrivals)
    ensures Tracks(signed, log, LogOf(arrivals), Retain(capacity, arrivals))
  {
    var tracked := (s: seq<Arrival>) => NeverFull(capacity, s) ==> Tracks(signed, log, LogOf(s), Retain(capacity, s));
    NothingTracks(signed, log);
    forall n | 0 <= n < |arrivals| && tracked([] + arrivals[..n])
      ensures tracked([] + arrivals[..n] + [arrivals[n]])
    {
      var before := [] + arrivals[..n];
      assert arrivals[n].delivery in LogOf(arrivals);
      RoomBefore(capacity, before, arrivals[n]);
      if NeverFull(capacity, before + [arrivals[n]]) {
        RetainTracksOnce(capacity, signed, log, before, arrivals[n]);
      }
    }
    Onward(tracked, [], arrivals);
    assert [] + arrivals == arrivals;
  }

  lemma NothingTracks(signed: EventId -> Event, log: Log)
    ensures Tracks(signed, log, {}, map[]) && LogOf([]) == {}
  {
  }

  /** Whatever the order: all that the log keeps is retained at its earliest observation,
      and nothing is that the log deletes. */
  lemma RetainsAtLeastTheKept(capacity: Capacity, signed: EventId -> Event, arrivals: seq<Arrival>)
    requires Lasting(signed, LogOf(arrivals)) && NeverFull(capacity, arrivals)
    ensures var log, events := LogOf(arrivals), Retain(capacity, arrivals);
            && (forall k :: Kept(signed, log, k) ==> k in events && Earliest(log, k, events[k].occurrence.observedAt))
            && (forall k :: k in events ==> Delivered(log, k) && !DeletedIn(log, signed(k.id)))
  {
    var log, events := LogOf(arrivals), Retain(capacity, arrivals);
    RetainTracks(capacity, signed, log, arrivals);
    forall k | k in events
      ensures !DeletedIn(log, signed(k.id))
    {
      if d :| d in log && Deletes(d.event, signed(k.id)) {
        DeletionIsKept(signed, log, d);
        assert false;
      }
    }
  }

  lemma DeletionIsKept(signed: EventId -> Event, log: Log, d: RelayEvent)
    requires Lasting(signed, log) && d in log && d.event.kind == DELETION
    ensures Kept(signed, log, KeyOf(d))
  {
    assert KeyOf(d) == KeyOf(d) && d.event == signed(d.event.id);
  }

  /** Without shadows the retained state is determined by the set of deliveries. */
  lemma RetainReflects(capacity: Capacity, signed: EventId -> Event, arrivals: seq<Arrival>)
    requires Lasting(signed, LogOf(arrivals)) && Unshadowed(LogOf(arrivals)) && NeverFull(capacity, arrivals)
    ensures Reflects(signed, LogOf(arrivals), Retain(capacity, arrivals))
  {
    var log, events := LogOf(arrivals), Retain(capacity, arrivals);
    RetainTracks(capacity, signed, log, arrivals);
    RetainsAtLeastTheKept(capacity, signed, arrivals);
    forall k | k in events
      ensures !BeatenIn(log, k.session, signed(k.id))
    {
      RetainedIsUnbeaten(signed, log, events, k);
    }
  }

  lemma RetainedIsUnbeaten(signed: EventId -> Event, log: Log, events: Retained, k: Key)
    requires Lasting(signed, log) && Unshadowed(log) && Tracks(signed, log, log, events)
    requires k in events && !DeletedIn(log, signed(k.id))
    ensures !BeatenIn(log, k.session, signed(k.id))
  {
    var y := SeenDelivery(signed, log, log, events, k);
    if BeatenIn(log, k.session, y.event) {
      var w := KeptChampion(signed, log, y);
      IsNewerStrict(w.event, w.event, w.event);
      assert KeyOf(w) in events && events[KeyOf(w)].event == w.event && KeyOf(events[KeyOf(w)]) == KeyOf(w);
      assert SameSlot(events[KeyOf(w)], events[k]);
    }
  }

  // ----- Same deliveries, same state -----

  /** The same keys, each with the same event and observation time. */
  ghost predicate Alike(a: Retained, b: Retained) {
    && a.Keys == b.Keys
    && forall k :: k in a ==> a[k].event == b[k].event && a[k].occurrence.observedAt == b[k].occurrence.observedAt
  }

  lemma SameReflection(signed: EventId -> Event, log: Log, a: Retained, b: Retained)
    requires Reflects(signed, log, a) && Reflects(signed, log, b)
    ensures Alike(a, b)
  {
    assert forall k :: k in a <==> k in b;
    forall k | k in a
      ensures a[k].event == b[k].event && a[k].occurrence.observedAt == b[k].occurrence.observedAt
    {
      assert Earliest(log, k, a[k].occurrence.observedAt) && Earliest(log, k, b[k].occurrence.observedAt);
    }
  }

  /** Admitting the same deliveries in any order, any number of times each, retains the
      same keys, each with its event and its earliest observation time. */
  lemma ArrivalOrderDoesNotMatter(capacity: Capacity, signed: EventId -> Event, a: seq<Arrival>, b: seq<Arrival>)
    requires LogOf(a) == LogOf(b) && Lasting(signed, LogOf(a)) && Unshadowed(LogOf(a))
    requires NeverFull(capacity, a) && NeverFull(capacity, b)
    ensures Alike(Retain(capacity, a), Retain(capacity, b))
  {
    RetainReflects(capacity, signed, a);
    RetainReflects(capacity, signed, b);
    SameReflection(signed, LogOf(a), Retain(capacity, a), Retain(capacity, b));
  }

  // ----- Room for a whole log -----

  lemma {:induction false} RetainedAreDelivered(capacity: Capacity, arrivals: seq<Arrival>)
    ensures Keyed(Retain(capacity, arrivals))
    ensures forall k :: k in Retain(capacity, arrivals) ==> Retain(capacity, arrivals)[k] in LogOf(arrivals)
  {
    if arrivals != [] {
      var before, last := arrivals[..|arrivals| - 1], arrivals[|arrivals| - 1];
      assert arrivals == before + [last];
      RetainedAreDelivered(capacity, before);
      RetainLast(capacity, before, last);
      StepKeyed(capacity, Retain(capacity, before), Admit(last.delivery, last.now));
      forall k | k in Retain(capacity, arrivals)
        ensures Retain(capacity, arrivals)[k] in LogOf(arrivals)
      {
        StepHolds(capacity, Retain(capacity, before), last.delivery, last.now, k);
      }
    }
  }

  lemma {:induction false} NoMoreKeysThanDeliveries(log: Log, keys: set<Key>)
    requires forall k :: k in keys ==> Delivered(log, k)
    ensures |keys| <= |log|
  {
    if keys != {} {
      var k :| k in keys;
      var x :| x in log && KeyOf(x) == k;
      forall j | j in keys - {k}
        ensures Delivered(log - {x}, j)
      {
        var y :| y in log && KeyOf(y) == j;
        assert y in log - {x};
      }
      NoMoreKeysThanDeliveries(log - {x}, keys - {k});
    }
  }

  lemma FewerThanLog(capacity: Capacity, log: Log, arrivals: seq<Arrival>)
    requires LogOf(arrivals) <= log
    ensures |Retain(capacity, arrivals)| <= |log|
  {
    var events := Retain(capacity, arrivals);
    RetainedAreDelivered(capacity, arrivals);
    forall k | k in events
      ensures Delivered(log, k)
    {
      assert events[k] in log && KeyOf(events[k]) == k;
    }
    NoMoreKeysThanDeliveries(log, events.Keys);
  }

  lemma {:induction false} RoomForAll(capacity: Capacity, log: Log, arrivals: seq<Arrival>)
    requires LogOf(arrivals) <= log && |log| < capacity
    ensures NeverFull(capacity, arrivals) && |Retain(capacity, arrivals)| < capacity
  {
    FewerThanLog(capacity, log, arrivals);
    if arrivals != [] {
      var before := arrivals[..|arrivals| - 1];
      assert LogOf(before) <= LogOf(arrivals);
      RoomForAll(capacity, log, before);
    }
  }

  // ----- A shadow makes the order matter -----

  /** The deliveries of a set, each once, at time zero. */
  lemma {:induction false} Listing(log: Log) returns (r: seq<Arrival>)
    ensures LogOf(r) == log && |r| == |log|
  {
    r := [];
    if log != {} {
      var x :| x in log;
      var rest := Listing(log - {x});
      RetainLast(1, rest, Arrival(x, 0));
      r := rest + [Arrival(x, 0)];
    }
  }

  lemma LogJoins(a: seq<Arrival>, b: seq<Arrival>)
    ensures LogOf(a + b) == LogOf(a) + LogOf(b)
  {
    assert forall x :: x in a + b <==> x in a || x in b;
  }

  lemma StaysOutOnce(capacity: Capacity, before: seq<Arrival>, last: Arrival, k: Key)
    requires k !in Retain(capacity, before) && KeyOf(last.delivery) != k
    ensures k !in Retain(capacity, before + [last])
  {
    var events := Retain(capacity, before);
    RetainLast(capacity, before, last);
    RetainedAreDelivered(capacity, before);
    StepKeyed(capacity, events, Admit(last.delivery, last.now));
    if k in After(capacity, events, Admit(last.delivery, last.now)) {
      StepHolds(capacity, events, last.delivery, last.now, k);
    }
  }

  /** A key that is out stays out while nothing delivers it. */
  lemma StaysOut(capacity: Capacity, before: seq<Arrival>, more: seq<Arrival>, k: Key)
    requires k !in Retain(capacity, before) && !Delivered(LogOf(more), k)
    ensures k !in Retain(capacity, before + more)
  {
    var out := (arrivals: seq<Arrival>) => k !in Retain(capacity, arrivals);
    forall n | 0 <= n < |more| && out(before + more[..n])
      ensures out(before + more[..n] + [more[n]])
    {
      assert more[n].delivery in LogOf(more);
      StaysOutOnce(capacity, before + more[..n], more[n], k);
    }
    Onward(out, before, more);
  }

  lemma TracksWithRoom(capacity: Capacity, signed: EventId -> Event, log: Log, arrivals: seq<Arrival>)
    requires Lasting(signed, log) && |log| < capacity && LogOf(arrivals) <= log
    ensures Tracks(signed, log, LogOf(arrivals), Retain(capacity, arrivals))
            && Roomy(capacity, Retain(capacity, arrivals))
  {
    RoomForAll(capacity, log, arrivals);
    RetainTracks(capacity, signed, log, arrivals);
    TracksRoomy(capacity, signed, log, LogOf(arrivals), Retain(capacity, arrivals));
  }

  /** A delivery that beats all there is takes its place. */
  lemma RivalTakesPlace(capacity: Capacity, events: Retained, y: RelayEvent, w: RelayEvent)
    requires Roomy(capacity, events) && NeverExpires(w.event) && Beats(w, y.occurrence.session, y.event)
    requires w.event.id != y.event.id
    requires forall k :: k in events ==> k == KeyOf(y) && events[k].event == y.event
    ensures KeyOf(y) !in After(capacity, events, Admit(w, 0))
  {
    AdmitWithRoom(capacity, events, w, 0);
    assert forall k :: k in events ==> SameSlot(events[k], w) && !Deletes(events[k].event, w.event);
    assert Enters(events, w, 0);
  }

  /** Deliveries of `y` alone, then a delivery that beats it: it is out. */
  lemma RivalDisplaces(capacity: Capacity, signed: EventId -> Event, log: Log, y: RelayEvent, w: RelayEvent,
                       first: seq<Arrival>)
    requires Lasting(signed, log) && |log| < capacity && LogOf(first) <= log && y in log && w in log
    requires Beats(w, y.occurrence.session, y.event) && forall x :: x in LogOf(first) ==> KeyOf(x) == KeyOf(y)
    ensures KeyOf(y) !in Retain(capacity, first + [Arrival(w, 0)])
  {
    var seen, events := LogOf(first), Retain(capacity, first);
    TracksWithRoom(capacity, signed, log, first);
    forall k | k in events
      ensures k == KeyOf(y) && events[k].event == y.event
    {
      var x := SeenDelivery(signed, log, seen, events, k);
    }
    IsNewerStrict(w.event, w.event, w.event);
    RivalTakesPlace(capacity, events, y, w);
    RetainLast(capacity, first, Arrival(w, 0));
  }

  lemma LostInOrder(capacity: Capacity, signed: EventId -> Event, log: Log, y: RelayEvent, w: RelayEvent,
                    first: seq<Arrival>, more: seq<Arrival>)
    requires Lasting(signed, log) && |log| < capacity && LogOf(first) <= log && y in log && w in log
    requires Beats(w, y.occurrence.session, y.event) && forall x :: x in LogOf(first) ==> KeyOf(x) == KeyOf(y)
    requires !Delivered(LogOf(more), KeyOf(y))
    ensures KeyOf(y) !in Retain(capacity, first + [Arrival(w, 0)] + more)
  {
    RivalDisplaces(capacity, signed, log, y, w, first);
    StaysOut(capacity, first + [Arrival(w, 0)], more, KeyOf(y));
  }

  lemma ListedInParts(log: Log, a: Log, w: RelayEvent) returns (first: seq<Arrival>, more: seq<Arrival>)
    requires a <= log && w in log - a
    ensures LogOf(first) == a && LogOf(more) == log - a - {w}
    ensures LogOf(first + [Arrival(w, 0)] + more) == log && |first + [Arrival(w, 0)] + more| == |log|
  {
    var b := log - a - {w};
    first := Listing(a);
    more := Listing(b);
    RetainLast(1, first, Arrival(w, 0));
    LogJoins(first + [Arrival(w, 0)], more);
    Parts(log, a, w);
  }

  lemma Parts(log: Log, a: Log, w: RelayEvent)
    requires a <= log && w in log - a
    ensures log == a + {w} + (log - a - {w}) && |log| == |a| + 1 + |log - a - {w}|
  {
    assert |log - a| == |log| - |a|;
  }

  /** An order in which a shadowed delivery is lost: its own deliveries, one that beats it, the rest. */
  lemma ShadowLost(capacity: Capacity, signed: EventId -> Event, log: Log, y: RelayEvent) returns (a: seq<Arrival>)
    requires Lasting(signed, log) && |log| < capacity && Shadowed(log, y)
    ensures LogOf(a) == log && |a| == |log| && KeyOf(y) !in Retain(capacity, a)
  {
    var w :| w in log && Beats(w, y.occurrence.session, y.event);
    var own := set x | x in log && KeyOf(x) == KeyOf(y);
    assert w !in own by {
      IsNewerStrict(w.event, w.event, w.event);
    }
    var first, more := ListedInParts(log, own, w);
    LostInOrder(capacity, signed, log, y, w, first, more);
    a := first + [Arrival(w, 0)] + more;
  }

  /** With every deletion of the log retained, nothing displaces a shadowed delivery. */
  lemma ShadowStays(capacity: Capacity, signed: EventId -> Event, log: Log, y: RelayEvent,
                    seen: Log, events: Retained, a: Arrival)
    requires Lasting(signed, log) && Shadowed(log, y) && Tracks(signed, log, seen, events) && |events| < capacity
    requires a.delivery in log && KeyOf(y) in events && forall d :: d in log && d.event.kind == DELETION ==> d in seen
    ensures KeyOf(y) in After(capacity, events, Admit(a.delivery, a.now))
  {
    var r := a.delivery;
    TracksRoomy(capacity, signed, log, seen, events);
    AdmitWithRoom(capacity, events, r, a.now);
    if Beats(r, y.occurrence.session, y.event) {
      DeletedIsRefused(signed, log, seen, events, r, a.now);
    }
    if Enters(events, r, a.now) {
      UnbeatenIsNotDropped(signed, events, y, r, a.now);
    }
  }

  /** What a retained deletion deletes does not enter. */
  lemma DeletedIsRefused(signed: EventId -> Event, log: Log, seen: Log, events: Retained, r: RelayEvent, now: Timestamp)
    requires Lasting(signed, log) && Tracks(signed, log, seen, events) && DeletedIn(log, r.event)
    requires forall d :: d in log && d.event.kind == DELETION ==> d in seen
    ensures !Enters(events, r, now)
  {
    var d :| d in log && Deletes(d.event, r.event);
    DeletionIsKept(signed, log, d);
    assert Delivered(seen, KeyOf(d));
    assert Deletes(events[KeyOf(d)].event, r.event);
  }

  lemma UnbeatenIsNotDropped(signed: EventId -> Event, events: Retained, y: RelayEvent, r: RelayEvent, now: Timestamp)
    requires Consistent(signed, events) && Enters(events, r, now) && KeyOf(y) in events && y.event == signed(y.event.id)
    requires !Deletes(r.event, y.event) && !Beats(r, y.occurrence.session, y.event)
    ensures KeyOf(y) !in Drops(events, r)
  {
    assert events[KeyOf(y)].event == y.event && KeyOf(events[KeyOf(y)]) == KeyOf(y);
  }

  lemma ShadowHoldsOnce(capacity: Capacity, signed: EventId -> Event, log: Log, y: RelayEvent, before: seq<Arrival>,
                        last: Arrival)
    requires Lasting(signed, log) && |log| < capacity && Shadowed(log, y) && LogOf(before) <= log
             && last.delivery in log
    requires KeyOf(y) in Retain(capacity, before)
    requires forall d :: d in log && d.event.kind == DELETION ==> d in LogOf(before)
    ensures KeyOf(y) in Retain(capacity, before + [last])
  {
    RetainLast(capacity, before, last);
    TracksWithRoom(capacity, signed, log, before);
    ShadowStays(capacity, signed, log, y, LogOf(before), Retain(capacity, before), last);
  }

  lemma ShadowHolds(capacity: Capacity, signed: EventId -> Event, log: Log, y: RelayEvent,
                    before: seq<Arrival>, more: seq<Arrival>)
    requires Lasting(signed, log) && |log| < capacity && Shadowed(log, y) && LogOf(before) <= log && LogOf(more) <= log
    requires KeyOf(y) in Retain(capacity, before)
    requires forall d :: d in log && d.event.kind == DELETION ==> d in LogOf(before)
    ensures KeyOf(y) in Retain(capacity, before + more)
  {
    var held := (arrivals: seq<Arrival>) => KeyOf(y) in Retain(capacity, arrivals);
    forall n | 0 <= n < |more| && held(before + more[..n])
      ensures held(before + more[..n] + [more[n]])
    {
      LogJoins(before, more[..n]);
      assert LogOf(more[..n]) <= LogOf(more) && more[n].delivery in LogOf(more);
      ShadowHoldsOnce(capacity, signed, log, y, before + more[..n], more[n]);
    }
    Onward(held, before, more);
  }

  /** After the deletions alone, a shadowed delivery enters. */
  lemma ShadowEnters(capacity: Capacity, signed: EventId -> Event, log: Log, y: RelayEvent, first: seq<Arrival>)
    requires Lasting(signed, log) && |log| < capacity && Shadowed(log, y) && LogOf(first) <= log
    requires forall d :: d in LogOf(first) ==> d.event.kind == DELETION
    ensures KeyOf(y) in Retain(capacity, first + [Arrival(y, 0)])
  {
    var seen, events := LogOf(first), Retain(capacity, first);
    TracksWithRoom(capacity, signed, log, first);
    forall k | k in events
      ensures events[k].event.kind == DELETION && !Deletes(events[k].event, y.event) && k != KeyOf(y)
    {
      var x := SeenDelivery(signed, log, seen, events, k);
    }
    EntersAmongDeletions(capacity, events, y);
    RetainLast(capacity, first, Arrival(y, 0));
  }

  lemma EntersAmongDeletions(capacity: Capacity, events: Retained, y: RelayEvent)
    requires Roomy(capacity, events) && NeverExpires(y.event) && CoordinateOf(y.event).Replaceable?
    requires forall k :: k in events ==> events[k].event.kind == DELETION && !Deletes(events[k].event, y.event)
    requires KeyOf(y) !in events
    ensures KeyOf(y) in After(capacity, events, Admit(y, 0))
  {
    AdmitWithRoom(capacity, events, y, 0);
    assert Enters(events, y, 0);
  }

  lemma SurvivesInOrder(capacity: Capacity, signed: EventId -> Event, log: Log, y: RelayEvent,
                        first: seq<Arrival>, more: seq<Arrival>)
    requires Lasting(signed, log) && |log| < capacity && Shadowed(log, y)
    requires LogOf(first) == (set d | d in log && d.event.kind == DELETION) && LogOf(more) <= log
    ensures KeyOf(y) in Retain(capacity, first + [Arrival(y, 0)] + more)
  {
    var before := first + [Arrival(y, 0)];
    ShadowEnters(capacity, signed, log, y, first);
    RetainLast(capacity, first, Arrival(y, 0));
    ShadowHolds(capacity, signed, log, y, before, more);
  }

  /** An order in which a shadowed delivery survives: every deletion, the delivery, the rest. */
  lemma ShadowSurvives(capacity: Capacity, signed: EventId -> Event, log: Log, y: RelayEvent) returns (b: seq<Arrival>)
    requires Lasting(signed, log) && |log| < capacity && Shadowed(log, y)
    ensures LogOf(b) == log && |b| == |log| && KeyOf(y) in Retain(capacity, b)
  {
    var deletions := set d | d in log && d.event.kind == DELETION;
    var first, more := ListedInParts(log, deletions, y);
    SurvivesInOrder(capacity, signed, log, y, first, more);
    b := first + [Arrival(y, 0)] + more;
  }

  // ----- Exactly when the order matters -----

  /** Every order of the deliveries, with any repetition, leaves the same state. */
  ghost predicate OrderFree(capacity: Capacity, log: Log) {
    forall a, b :: LogOf(a) == log && LogOf(b) == log ==> Alike(Retain(capacity, a), Retain(capacity, b))
  }

  /** Every order that admits each delivery once leaves the same state. */
  ghost predicate OrderFreeOnce(capacity: Capacity, log: Log) {
    forall a, b :: LogOf(a) == log && LogOf(b) == log && |a| == |b| == |log|
                   ==> Alike(Retain(capacity, a), Retain(capacity, b))
  }

  /** With room for the whole log, the order of arrival is irrelevant if and only if no
      delivery is shadowed, whether deliveries repeat or come once each. */
  lemma OrderMattersExactlyUnderShadow(capacity: Capacity, signed: EventId -> Event, log: Log)
    requires Lasting(signed, log) && |log| < capacity
    ensures OrderFree(capacity, log) <==> Unshadowed(log)
    ensures OrderFreeOnce(capacity, log) <==> Unshadowed(log)
  {
    if Unshadowed(log) {
      forall a, b | LogOf(a) == log && LogOf(b) == log
        ensures Alike(Retain(capacity, a), Retain(capacity, b))
      {
        RoomForAll(capacity, log, a);
        RoomForAll(capacity, log, b);
        ArrivalOrderDoesNotMatter(capacity, signed, a, b);
      }
    } else {
      var y :| y in log && Shadowed(log, y);
      var a := ShadowLost(capacity, signed, log, y);
      var b := ShadowSurvives(capacity, signed, log, y);
      assert !Alike(Retain(capacity, a), Retain(capacity, b));
    }
  }

  // ----- A concrete shadow -----

  function Contribution(id: EventId, kind: Kind, at: Timestamp, tags: seq<Tag>): RelayEvent {
    RelayEvent(Event(id, 1, kind, at, tags, ""), RelayOccurrence(0, Unauthenticated, 0))
  }

  /** A profile, its replacement, and a deletion naming only the replacement by id. */
  function Profile(): RelayEvent { Contribution(1, 0, 1, []) }
  function Replacement(): RelayEvent { Contribution(2, 0, 2, []) }
  function Withdrawal(): RelayEvent { Contribution(3, DELETION, 3, [Tag(["e", "2"], Some(2), None, None)]) }

  function ProfileEvents(): EventId -> Event {
    (id: EventId) => if id == 1 then Profile().event else if id == 2 then Replacement().event else Withdrawal().event
  }

  lemma ProfileIsShadowed()
    ensures Lasting(ProfileEvents(), {Profile(), Replacement(), Withdrawal()})
    ensures Shadowed({Profile(), Replacement(), Withdrawal()}, Profile())
  {
    var t := Tag(["e", "2"], Some(2), None, None);
    assert t in Withdrawal().event.tags && Named(t, "e");
    assert "e" != "a" && "e" != "expiration" by {
      assert "e"[0] != "a"[0] && |"e"| != |"expiration"|;
    }
    assert forall x :: x in Withdrawal().event.tags ==> x == t;
    assert Deletes(Withdrawal().event, Replacement().event);
    assert Beats(Replacement(), 0, Profile().event);
  }

  lemma SingleLog(r: RelayEvent)
    ensures LogOf([Arrival(r, 0)]) == {r}
  {
    assert forall a :: a in [Arrival(r, 0)] <==> a == Arrival(r, 0);
  }

  /** A profile, a newer one and a deletion of the newer one only, in two orders. */
  lemma TwoOrders(capacity: Capacity, signed: EventId -> Event, y: RelayEvent, w: RelayEvent, d: RelayEvent)
    requires capacity > 3 && Lasting(signed, {y, w, d}) && Shadowed({y, w, d}, y)
    requires Beats(w, y.occurrence.session, y.event) && d.event.kind == DELETION && KeyOf(d) != KeyOf(y)
    ensures KeyOf(y) !in Retain(capacity, [Arrival(y, 0)] + [Arrival(w, 0)] + [Arrival(d, 0)])
    ensures KeyOf(y) in Retain(capacity, [Arrival(d, 0)] + [Arrival(y, 0)] + [Arrival(w, 0)])
  {
    SingleLog(y);
    SingleLog(w);
    SingleLog(d);
    LostInOrder(capacity, signed, {y, w, d}, y, w, [Arrival(y, 0)], [Arrival(d, 0)]);
    SurvivesInOrder(capacity, signed, {y, w, d}, y, [Arrival(d, 0)], [Arrival(w, 0)]);
  }

  /** A deletion naming a replaceable event by id makes the order matter: the profile it
      superseded survives one arrival order and not the other. */
  lemma NamingByIdMakesOrderMatter(capacity: Capacity)
    requires capacity > 3
    ensures var p, r, d := [Arrival(Profile(), 0)], [Arrival(Replacement(), 0)], [Arrival(Withdrawal(), 0)];
            KeyOf(Profile()) !in Retain(capacity, p + r + d) && KeyOf(Profile()) in Retain(capacity, d + p + r)
  {
    ProfileIsShadowed();
    TwoOrders(capacity, ProfileEvents(), Profile(), Replacement(), Withdrawal());
  }
}
