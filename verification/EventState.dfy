/** Pure decisions over relay-observed events: identity, supersession, deletion and expiration. */
module EventState {
  import opened Prelude
  import opened Events

  datatype Authority = Unauthenticated | As(account: PublicKey)

  /** One delivery of an event: the logical relay, the authority it answered under, the local time. */
  datatype RelayOccurrence = RelayOccurrence(session: RelayUrl, authority: Authority, observedAt: Timestamp)

  datatype RelayEvent = RelayEvent(event: Event, occurrence: RelayOccurrence)

  /** Contributions are kept per event and logical relay. */
  datatype Key = Key(id: EventId, session: RelayUrl)

  type Retained = map<Key, RelayEvent>

  function KeyOf(r: RelayEvent): Key {
    Key(r.event.id, r.occurrence.session)
  }

  // ----- Identity -----

  datatype Coordinate =
    | Immutable(id: EventId)
    | Replaceable(author: PublicKey, kind: Kind, identifier: Option<string>)

  const DELETION: Kind := 5

  predicate IsAddressable(kind: Kind) {
    30_000 <= kind < 40_000
  }

  predicate IsReplaceable(kind: Kind) {
    kind == 0 || kind == 3 || 10_000 <= kind < 20_000
  }

  /** The value of the first `d` tag; an absent tag or value reads as empty. */
  function Identifier(tags: seq<Tag>): string {
    if tags == [] then ""
    else if Named(tags[0], "d") then (if |tags[0].values| > 1 then tags[0].values[1] else "")
    else Identifier(tags[1..])
  }

  function CoordinateOf(e: Event): Coordinate {
    if IsAddressable(e.kind) then Replaceable(e.author, e.kind, Some(Identifier(e.tags)))
    else if IsReplaceable(e.kind) then Replaceable(e.author, e.kind, None)
    else Immutable(e.id)
  }

  /** Winner order among candidates of one coordinate: later first, then lower id. */
  predicate IsNewer(candidate: Event, current: Event) {
    candidate.createdAt > current.createdAt
    || (candidate.createdAt == current.createdAt && candidate.id < current.id)
  }

  // ----- Deletion and expiration -----

  predicate NamesEvent(deletion: Event, id: EventId) {
    exists t :: t in deletion.tags && Named(t, "e") && t.asId == Some(id)
  }

  function AddressCoordinate(a: Address): Coordinate {
    Replaceable(a.author, a.kind, if IsAddressable(a.kind) then Some(a.identifier) else None)
  }

  predicate NamesCoordinate(deletion: Event, c: Coordinate) {
    exists t :: t in deletion.tags && Named(t, "a") && t.asAddress.Some? && AddressCoordinate(t.asAddress.value) == c
  }

  /** Whether an authorized kind-5 event deletes the target. */
  predicate Deletes(deletion: Event, target: Event) {
    && deletion.kind == DELETION && target.kind != DELETION && deletion.author == target.author
    && (NamesEvent(deletion, target.id)
        || (target.createdAt <= deletion.createdAt && NamesCoordinate(deletion, CoordinateOf(target))))
  }

  predicate IsExpired(e: Event, now: Timestamp) {
    exists t :: t in e.tags && Named(t, "expiration") && t.asSeconds.Some? && t.asSeconds.value <= now
  }

  /** No expiration tag can ever fall due. */
  ghost predicate NeverExpires(e: Event) {
    forall now :: !IsExpired(e, now)
  }

  // ----- Transitions -----

  datatype Cause = Deleted(deletion: EventId) | Superseded(winner: EventId) | Expired | Evicted

  datatype Mutation = Upsert(incoming: RelayEvent) | Retract(key: Key, cause: Cause)

  function RetractWhere(current: seq<RelayEvent>, gone: RelayEvent -> bool, cause: Cause): seq<Mutation> {
    if current == [] then []
    else
      var first := if gone(current[0]) then [Retract(KeyOf(current[0]), cause)] else [];
      first + RetractWhere(current[1..], gone, cause)
  }

  function ExpiredAt(now: Timestamp): RelayEvent -> bool {
    (known: RelayEvent) => IsExpired(known.event, now)
  }

  function DeletedBy(deletion: Event): RelayEvent -> bool {
    (known: RelayEvent) => Deletes(deletion, known.event)
  }

  predicate SameSlot(known: RelayEvent, incoming: RelayEvent) {
    known.occurrence.session == incoming.occurrence.session && CoordinateOf(known.event) == CoordinateOf(incoming.event)
  }

  function SupersededBy(incoming: RelayEvent): RelayEvent -> bool {
    (known: RelayEvent) => SameSlot(known, incoming) && known.event.id != incoming.event.id
  }

  function FirstExact(current: seq<RelayEvent>, key: Key): Option<RelayEvent> {
    if current == [] then None
    else if KeyOf(current[0]) == key then Some(current[0])
    else FirstExact(current[1..], key)
  }

  /** One ordered transition for a finite set of admitted contributions. */
  function MutationsForEvent(current: seq<RelayEvent>, incoming: RelayEvent, now: Timestamp): seq<Mutation> {
    var e := incoming.event;
    if IsExpired(e, now) || exists known :: known in current && Deletes(known.event, e) then []
    else if e.kind == DELETION then
      RetractWhere(current, DeletedBy(e), Deleted(e.id)) + [Upsert(incoming)]
    else
      var existing := FirstExact(current, KeyOf(incoming));
      if existing.Some? then
        (if incoming.occurrence.observedAt < existing.value.occurrence.observedAt then [Upsert(incoming)] else [])
      else if CoordinateOf(e).Replaceable? then
        (if exists known :: known in current && SameSlot(known, incoming) && !IsNewer(e, known.event) then []
         else RetractWhere(current, SupersededBy(incoming), Superseded(e.id)) + [Upsert(incoming)])
      else [Upsert(incoming)]
  }

  function MutationsForExpiration(current: seq<RelayEvent>, now: Timestamp): seq<Mutation> {
    RetractWhere(current, ExpiredAt(now), Expired)
  }

  function Unexpired(current: seq<RelayEvent>, now: Timestamp): seq<RelayEvent> {
    if current == [] then []
    else (if IsExpired(current[0].event, now) then [] else [current[0]]) + Unexpired(current[1..], now)
  }

  /** The batch an admission commits: due expirations first, then the admission itself. */
  function AdmitMutations(current: seq<RelayEvent>, incoming: RelayEvent, now: Timestamp): seq<Mutation> {
    MutationsForExpiration(current, now) + MutationsForEvent(Unexpired(current, now), incoming, now)
  }

  // ----- What a batch does -----

  function RetractedKeys(mutations: seq<Mutation>): set<Key> {
    set m | m in mutations && m.Retract? :: m.key
  }

  function Upserts(mutations: seq<Mutation>): seq<RelayEvent> {
    if mutations == [] then []
    else (if mutations[0].Upsert? then [mutations[0].incoming] else []) + Upserts(mutations[1..])
  }

  lemma UpsertsAppend(a: seq<Mutation>, b: seq<Mutation>)
    ensures Upserts(a + b) == Upserts(a) + Upserts(b)
    ensures RetractedKeys(a + b) == RetractedKeys(a) + RetractedKeys(b)
  {
    UpsertsJoin(a, b);
    assert forall m :: m in a + b <==> m in a || m in b;
  }

  lemma {:induction false} UpsertsJoin(a: seq<Mutation>, b: seq<Mutation>)
    ensures Upserts(a + b) == Upserts(a) + Upserts(b)
  {
    if a == [] {
      assert a + b == b;
    } else {
      assert (a + b)[0] == a[0] && (a + b)[1..] == a[1..] + b;
      UpsertsJoin(a[1..], b);
    }
  }

  lemma SoleUpsert(r: RelayEvent)
    ensures Upserts([Upsert(r)]) == [r] && RetractedKeys([Upsert(r)]) == {}
    ensures Upserts([]) == [] && RetractedKeys([]) == {}
  {
    assert Upserts([Upsert(r)][1..]) == [];
    assert forall m :: m in [Upsert(r)] ==> m.Upsert?;
  }

  lemma {:induction false} RetractWhereMeaning(current: seq<RelayEvent>, gone: RelayEvent -> bool, cause: Cause)
    ensures Upserts(RetractWhere(current, gone, cause)) == []
    ensures RetractedKeys(RetractWhere(current, gone, cause)) == set r | r in current && gone(r) :: KeyOf(r)
  {
    if current != [] {
      RetractWhereMeaning(current[1..], gone, cause);
      var head := if gone(current[0]) then [Retract(KeyOf(current[0]), cause)] else [];
      UpsertsAppend(head, RetractWhere(current[1..], gone, cause));
      assert forall r :: r in current <==> r == current[0] || r in current[1..];
    }
  }

  lemma {:induction false} UnexpiredMember(current: seq<RelayEvent>, now: Timestamp, r: RelayEvent)
    ensures r in Unexpired(current, now) <==> r in current && !IsExpired(r.event, now)
  {
    if current != [] {
      UnexpiredMember(current[1..], now, r);
    }
  }

  lemma {:induction false} FirstExactMeaning(current: seq<RelayEvent>, key: Key)
    ensures FirstExact(current, key).Some? ==>
              FirstExact(current, key).value in current && KeyOf(FirstExact(current, key).value) == key
    ensures FirstExact(current, key).None? ==> forall r :: r in current ==> KeyOf(r) != key
  {
    if current != [] && KeyOf(current[0]) != key {
      FirstExactMeaning(current[1..], key);
    }
  }

  // ----- The winner order -----

  lemma IsNewerStrict(a: Event, b: Event, c: Event)
    ensures !IsNewer(a, a)
    ensures IsNewer(a, b) && IsNewer(b, c) ==> IsNewer(a, c)
    ensures a.id != b.id ==> IsNewer(a, b) || IsNewer(b, a)
  {
  }

  /** Deletion by coordinate reaches backwards: whatever is older at the same coordinate goes too. */
  lemma DeletionReachesBack(deletion: Event, newer: Event, older: Event)
    requires Deletes(deletion, newer) && !NamesEvent(deletion, newer.id)
    requires CoordinateOf(newer) == CoordinateOf(older) && CoordinateOf(older).Replaceable?
             && older.createdAt <= newer.createdAt
    ensures Deletes(deletion, older)
  {
  }
}
