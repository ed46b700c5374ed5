/** Answering a query from the per-session winners gives the answer of the full log. */
module Retention {
  import opened Prelude
  import opened Orders
  import opened Events
  import opened EventState
  import opened EventCache
  import opened CacheRuns
  import opened ArrivalOrder
  import opened Evaluator

  function Relays(ds: seq<RelayEvent>): seq<Contribution> {
    seq(|ds|, i requires 0 <= i < |ds| => Relay(ds[i]))
  }

  ghost predicate GenuineLocals(signed: EventId -> Event, locals: seq<Contribution>) {
    forall c :: c in locals ==> c.Local? && c.event == signed(c.event.id)
  }

  ghost predicate GenuineDeliveries(signed: EventId -> Event, ds: seq<RelayEvent>) {
    forall d :: d in ds ==> d.event == signed(d.event.id)
  }

  // ----- Candidates over deliveries and local contributions -----

  /** From deliveries alone: the candidate is signed, unpublished, and collects exactly its deliveries. */
  lemma {:induction false} RelaysShape(q: Query, signed: EventId -> Event, ds: seq<RelayEvent>, id: EventId)
    requires GenuineDeliveries(signed, ds)
    ensures var r := CandidateOf(q, Relays(ds), id);
            && (r.Some? ==> r.value.event == signed(id) && r.value.isSigned && r.value.publication.None?)
            && (forall d :: (r.Some? && d in r.value.relay) <==> d in ds && Qualifies(q, Relay(d)) && d.event.id == id)
            && (r.Some? ==> r.value.relay != [])
  {
    if ds != [] {
      var n := |ds| - 1;
      RelaysShape(q, signed, ds[..n], id);
      assert Relays(ds)[..n] == Relays(ds[..n]);
      assert ds == ds[..n] + [ds[n]];
    }
  }

  /** Local contributions after the deliveries add publication evidence and signatures, nothing else. */
  lemma {:induction false} LocalsShape(q: Query, signed: EventId -> Event, ds: seq<RelayEvent>,
                                       locals: seq<Contribution>, id: EventId)
    requires GenuineDeliveries(signed, ds) && GenuineLocals(signed, locals)
    ensures var r, l := CandidateOf(q, Relays(ds), id), CandidateOf(q, locals, id);
            var c := CandidateOf(q, Relays(ds) + locals, id);
            && (c.Some? <==> r.Some? || l.Some?)
            && (l.Some? ==> l.value.publication.Some?)
            && (c.Some? ==>
                 && c.value.event == signed(id)
                 && c.value.relay == (if r.Some? then r.value.relay else [])
                 && c.value.isSigned == (r.Some? || (l.Some? && l.value.isSigned))
                 && c.value.publication == (if l.Some? then l.value.publication else None))
  {
    RelaysShape(q, signed, ds, id);
    if locals == [] {
      assert Relays(ds) + locals == Relays(ds);
    } else {
      var n := |locals| - 1;
      LocalsShape(q, signed, ds, locals[..n], id);
      assert (Relays(ds) + locals)[..|ds| + n] == Relays(ds) + locals[..n];
      assert locals[n] in locals;
    }
  }

  // ----- Occurrences -----

  ghost predicate EarliestAt(relay: seq<RelayEvent>, s: RelayUrl, t: Timestamp) {
    && (exists d :: d in relay && d.occurrence.session == s && d.occurrence.observedAt == t)
    && (forall d :: d in relay && d.occurrence.session == s ==> t <= d.occurrence.observedAt)
  }

  ghost predicate Heard(relay: seq<RelayEvent>, s: RelayUrl) {
    exists d :: d in relay && d.occurrence.session == s
  }

  /** One occurrence per session heard from, at its earliest observation. */
  lemma {:induction false} OccurrencesMeaning(relay: seq<RelayEvent>, authority: Authority)
    requires forall d :: d in relay ==> d.occurrence.authority == authority
    ensures forall s: RelayUrl :: s in Occurrences(relay) <==> Heard(relay, s)
    ensures forall s: RelayUrl :: s in Occurrences(relay) ==>
              && Occurrences(relay)[s].session == s && Occurrences(relay)[s].authority == authority
              && EarliestAt(relay, s, Occurrences(relay)[s].observedAt)
  {
    if relay != [] {
      var n := |relay| - 1;
      var before, last := relay[..n], relay[n];
      OccurrencesMeaning(before, authority);
      assert relay == before + [last];
      forall s: RelayUrl
        ensures s in Occurrences(relay) <==> Heard(relay, s)
        ensures s in Occurrences(relay) ==>
                  && Occurrences(relay)[s].session == s && Occurrences(relay)[s].authority == authority
                  && EarliestAt(relay, s, Occurrences(relay)[s].observedAt)
      {
        HeardMore(before, last, s);
        if s in Occurrences(before) {
          EarlierOf(before, last, s, Occurrences(before)[s].observedAt);
        } else if s == last.occurrence.session {
          assert last in relay;
        }
      }
    }
  }

  lemma HeardMore(before: seq<RelayEvent>, last: RelayEvent, s: RelayUrl)
    ensures Heard(before + [last], s) <==> Heard(before, s) || last.occurrence.session == s
  {
    if Heard(before, s) {
      var d :| d in before && d.occurrence.session == s;
      assert d in before + [last];
    }
    assert last in before + [last];
  }

  lemma EarlierOf(before: seq<RelayEvent>, last: RelayEvent, s: RelayUrl, t: Timestamp)
    requires EarliestAt(before, s, t)
    ensures EarliestAt(before + [last], s,
              if last.occurrence.session == s && last.occurrence.observedAt < t then last.occurrence.observedAt else t)
  {
    var d :| d in before && d.occurrence.session == s && d.occurrence.observedAt == t;
    assert d in before + [last] && last in before + [last];
  }

  lemma SameOccurrences(a: seq<RelayEvent>, b: seq<RelayEvent>, authority: Authority)
    requires forall d :: d in a || d in b ==> d.occurrence.authority == authority
    requires forall s: RelayUrl :: Heard(a, s) <==> Heard(b, s)
    requires forall s: RelayUrl, t: Timestamp :: Heard(a, s) && EarliestAt(a, s, t) ==> EarliestAt(b, s, t)
    ensures Occurrences(a) == Occurrences(b)
  {
    OccurrencesMeaning(a, authority);
    OccurrencesMeaning(b, authority);
    forall s | s in Occurrences(a)
      ensures Occurrences(a)[s] == Occurrences(b)[s]
    {
      assert EarliestAt(b, s, Occurrences(a)[s].observedAt);
      assert Occurrences(a)[s].observedAt == Occurrences(b)[s].observedAt;
    }
  }

  // ----- The log and the cache -----

  /** The cache reflects a log of one authority without deletions, and holds deliveries of that log. */
  ghost predicate Mirrors(signed: EventId -> Event, authority: Authority, ds: seq<RelayEvent>, events: Retained) {
    && Lasting(signed, Elements(ds)) && Reflects(signed, Elements(ds), events)
    && (forall d :: d in ds ==> d.occurrence.authority == authority && d.event.kind != DELETION)
    && (forall k :: k in events ==> events[k] in ds)
  }

  lemma HeldMember(signed: EventId -> Event, authority: Authority, ds: seq<RelayEvent>, events: Retained, d: RelayEvent)
    requires Mirrors(signed, authority, ds, events)
    ensures d in Values(events) <==> KeyOf(d) in events && events[KeyOf(d)] == d
    ensures d in Values(events) ==> d in ds
  {
    ValuesList(events);
  }

  lemma GenuineBoth(signed: EventId -> Event, authority: Authority, ds: seq<RelayEvent>, events: Retained)
    requires Mirrors(signed, authority, ds, events)
    ensures GenuineDeliveries(signed, ds) && GenuineDeliveries(signed, Values(events))
  {
    assert forall d :: d in ds ==> d in Elements(ds);
    forall d | d in Values(events)
      ensures d.event == signed(d.event.id)
    {
      HeldMember(signed, authority, ds, events, d);
    }
  }

  /** Where every qualifying delivery of an event is still held, both sides give it the same occurrences. */
  lemma SameHearing(q: Query, signed: EventId -> Event, authority: Authority, ds: seq<RelayEvent>, events: Retained,
                    id: EventId,
                    a: seq<RelayEvent>, b: seq<RelayEvent>)
    requires Mirrors(signed, authority, ds, events)
    requires forall d :: d in a <==> d in ds && Qualifies(q, Relay(d)) && d.event.id == id
    requires forall d :: d in b <==> d in Values(events) && Qualifies(q, Relay(d)) && d.event.id == id
    requires forall d :: d in a ==> KeyOf(d) in events
    ensures Occurrences(a) == Occurrences(b) && (a == [] <==> b == [])
  {
    forall d | d in b
      ensures d in a
    {
      HeldMember(signed, authority, ds, events, d);
    }
    forall d | d in a
      ensures events[KeyOf(d)] in b
    {
      HeldMember(signed, authority, ds, events, events[KeyOf(d)]);
    }
    forall s: RelayUrl
      ensures Heard(a, s) <==> Heard(b, s)
    {
      if Heard(a, s) {
        var d :| d in a && d.occurrence.session == s;
        assert events[KeyOf(d)] in b && events[KeyOf(d)].occurrence.session == s;
      }
    }
    forall s: RelayUrl, t: Timestamp | Heard(a, s) && EarliestAt(a, s, t)
      ensures EarliestAt(b, s, t)
    {
      HeldEarliest(q, signed, authority, ds, events, id, a, b, s, t);
    }
    SameOccurrences(a, b, authority);
    if a != [] {
      assert a[0] in a;
    }
    if b != [] {
      assert b[0] in b;
    }
  }

  lemma HeldEarliest(q: Query, signed: EventId -> Event, authority: Authority, ds: seq<RelayEvent>, events: Retained,
                     id: EventId,
                     a: seq<RelayEvent>, b: seq<RelayEvent>, s: RelayUrl, t: Timestamp)
    requires Mirrors(signed, authority, ds, events) && EarliestAt(a, s, t)
    requires forall d :: d in a <==> d in ds && Qualifies(q, Relay(d)) && d.event.id == id
    requires forall d :: d in b ==> d in a
    requires forall d :: d in a ==> KeyOf(d) in events && events[KeyOf(d)] in b
    ensures EarliestAt(b, s, t)
  {
    var d :| d in a && d.occurrence.session == s && d.occurrence.observedAt == t;
    var held := events[KeyOf(d)];
    assert Earliest(Elements(ds), KeyOf(d), held.occurrence.observedAt);
    assert d in Elements(ds) && held.occurrence.observedAt <= t;
    assert held in b && held in a && t <= held.occurrence.observedAt;
  }

  /** Where every qualifying delivery of an event is still held, both sides give it the same record. */
  lemma SameRecord(q: Query, signed: EventId -> Event, authority: Authority, ds: seq<RelayEvent>, events: Retained,
                   locals: seq<Contribution>, id: EventId)
    requires Mirrors(signed, authority, ds, events) && GenuineLocals(signed, locals)
    requires forall d :: d in ds && Qualifies(q, Relay(d)) && d.event.id == id ==> KeyOf(d) in events
    ensures var full := CandidateOf(q, Relays(ds) + locals, id);
            var held := CandidateOf(q, Relays(Values(events)) + locals, id);
            && (full.Some? <==> held.Some?)
            && (full.Some? ==> RecordOf(full.value) == RecordOf(held.value))
  {
    GenuineBoth(signed, authority, ds, events);
    RelaysShape(q, signed, ds, id);
    RelaysShape(q, signed, Values(events), id);
    LocalsShape(q, signed, ds, locals, id);
    LocalsShape(q, signed, Values(events), locals, id);
    var full, held := CandidateOf(q, Relays(ds), id), CandidateOf(q, Relays(Values(events)), id);
    SameHearing(q, signed, authority, ds, events, id,
                if full.Some? then full.value.relay else [], if held.Some? then held.value.relay else []);
  }

  /** What the cache holds, the log holds; and an event is its signed self on either side. */
  lemma HeldIsDelivered(q: Query, signed: EventId -> Event, authority: Authority, ds: seq<RelayEvent>, events: Retained,
                        locals: seq<Contribution>, id: EventId)
    requires Mirrors(signed, authority, ds, events) && GenuineLocals(signed, locals)
    ensures var full := CandidateOf(q, Relays(ds) + locals, id);
            var held := CandidateOf(q, Relays(Values(events)) + locals, id);
            && (held.Some? ==> full.Some? && held.value.event == signed(id))
            && (full.Some? ==> full.value.event == signed(id))
  {
    GenuineBoth(signed, authority, ds, events);
    LocalsShape(q, signed, ds, locals, id);
    LocalsShape(q, signed, Values(events), locals, id);
    RelaysShape(q, signed, ds, id);
    RelaysShape(q, signed, Values(events), id);
    var held := CandidateOf(q, Relays(Values(events)), id);
    if held.Some? {
      var d := held.value.relay[0];
      assert d in held.value.relay;
      HeldMember(signed, authority, ds, events, d);
    }
  }

  // ----- Winners -----

  ghost predicate ByAuthorAndKind(s: Selection) {
    s.ids.None? && s.tags == map[]
  }

  /** Each session still holds every qualifying delivery of an event that wins over the full log. */
  lemma WinnersAreHeld(q: Query, signed: EventId -> Event, authority: Authority, ds: seq<RelayEvent>, events: Retained,
                       locals: seq<Contribution>, d: RelayEvent)
    requires Mirrors(signed, authority, ds, events) && GenuineLocals(signed, locals) && ByAuthorAndKind(q.selection)
    requires d in ds && Qualifies(q, Relay(d)) && d.event.id in Winners(q, Relays(ds) + locals)
    ensures KeyOf(d) in events
  {
    var cs := Relays(ds) + locals;
    assert d in Elements(ds);
    forall x | x in Elements(ds) && Beats(x, d.occurrence.session, d.event)
      ensures false
    {
      RivalOutranks(q, signed, authority, ds, events, locals, d, x);
    }
    forall x | x in Elements(ds)
      ensures !Deletes(x.event, d.event)
    {
      assert x in ds;
    }
    assert Kept(signed, Elements(ds), KeyOf(d));
  }

  lemma RivalOutranks(q: Query, signed: EventId -> Event, authority: Authority, ds: seq<RelayEvent>, events: Retained,
                      locals: seq<Contribution>, d: RelayEvent, x: RelayEvent)
    requires Mirrors(signed, authority, ds, events) && GenuineLocals(signed, locals) && ByAuthorAndKind(q.selection)
    requires d in ds && x in ds && Qualifies(q, Relay(d)) && Selected(q, Relays(ds) + locals, d.event.id)
    requires Beats(x, d.occurrence.session, d.event)
    ensures x.event.id in Candidates(q, Relays(ds) + locals) && Outranks(q, Relays(ds) + locals, x.event.id, d.event.id)
  {
    var cs := Relays(ds) + locals;
    assert d in Elements(ds) && x in Elements(ds);
    var i :| 0 <= i < |ds| && ds[i] == x;
    assert cs[i] == Relay(x) && cs[i] in cs && Qualifies(q, cs[i]);
    CandidateExists(q, cs, x.event.id);
    HeldIsDelivered(q, signed, authority, ds, events, locals, x.event.id);
    HeldIsDelivered(q, signed, authority, ds, events, locals, d.event.id);
  }

  lemma {:induction false} TopRanked(q: Query, cs: seq<Contribution>, ids: set<EventId>, id: EventId)
    returns (w: EventId)
    requires CandidateOf(q, cs, id).Some? && exists other :: other in ids && Outranks(q, cs, other, id)
    ensures w in ids && Outranks(q, cs, w, id) && !(exists other :: other in ids && Outranks(q, cs, other, w))
  {
    w :| w in ids && Outranks(q, cs, w, id);
    if x :| x in ids && Outranks(q, cs, x, w) {
      assert x in ids - {w} && Outranks(q, cs, x, id);
      var top := TopRanked(q, cs, ids - {w}, id);
      assert !Outranks(q, cs, x, top);
      w := top;
    }
  }

  lemma SameWinners(q: Query, signed: EventId -> Event, authority: Authority, ds: seq<RelayEvent>, events: Retained,
                    locals: seq<Contribution>)
    requires Mirrors(signed, authority, ds, events) && GenuineLocals(signed, locals) && ByAuthorAndKind(q.selection)
    ensures Winners(q, Relays(ds) + locals) == Winners(q, Relays(Values(events)) + locals)
  {
    var full, held := Relays(ds) + locals, Relays(Values(events)) + locals;
    forall id | id in Winners(q, full)
      ensures id in Winners(q, held)
    {
      WinnerStays(q, signed, authority, ds, events, locals, id);
    }
    forall id | id in Winners(q, held)
      ensures id in Winners(q, full)
    {
      CandidateExists(q, full, id);
      HeldIsDelivered(q, signed, authority, ds, events, locals, id);
      if exists other :: other in Candidates(q, full) && Outranks(q, full, other, id) {
        var w := TopRanked(q, full, Candidates(q, full), id);
        WinnerStays(q, signed, authority, ds, events, locals, w);
        HeldIsDelivered(q, signed, authority, ds, events, locals, w);
        assert Outranks(q, held, w, id);
        assert false;
      }
    }
  }

  lemma WinnerStays(q: Query, signed: EventId -> Event, authority: Authority, ds: seq<RelayEvent>, events: Retained,
                    locals: seq<Contribution>, id: EventId)
    requires Mirrors(signed, authority, ds, events) && GenuineLocals(signed, locals) && ByAuthorAndKind(q.selection)
    requires id in Winners(q, Relays(ds) + locals)
    ensures id in Winners(q, Relays(Values(events)) + locals)
    ensures RecordOf(CandidateOf(q, Relays(ds) + locals, id).value)
            == RecordOf(CandidateOf(q, Relays(Values(events)) + locals, id).value)
  {
    var full, held := Relays(ds) + locals, Relays(Values(events)) + locals;
    forall d | d in ds && Qualifies(q, Relay(d)) && d.event.id == id
      ensures KeyOf(d) in events
    {
      WinnersAreHeld(q, signed, authority, ds, events, locals, d);
    }
    SameRecord(q, signed, authority, ds, events, locals, id);
    CandidateExists(q, held, id);
    forall other | other in Candidates(q, held) && Outranks(q, held, other, id)
      ensures false
    {
      HeldIsDelivered(q, signed, authority, ds, events, locals, other);
      HeldIsDelivered(q, signed, authority, ds, events, locals, id);
      CandidateExists(q, full, other);
      assert Outranks(q, full, other, id);
    }
  }

  /** A query by author and kind gets the same records, occurrences included, in the
      same order from the cache as from the whole log. */
  lemma SameAnswer(q: Query, signed: EventId -> Event, authority: Authority, ds: seq<RelayEvent>, events: Retained,
                   locals: seq<Contribution>)
    requires Mirrors(signed, authority, ds, events) && GenuineLocals(signed, locals) && ByAuthorAndKind(q.selection)
    ensures Answer(q, Relays(Values(events)) + locals) == Answer(q, Relays(ds) + locals)
  {
    var full, held := Relays(ds) + locals, Relays(Values(events)) + locals;
    SameWinners(q, signed, authority, ds, events, locals);
    var ids := Ascending(Winners(q, full));
    forall id | id in ids
      ensures RecordOf(CandidateOf(q, full, id).value) == RecordOf(CandidateOf(q, held, id).value)
    {
      WinnerStays(q, signed, authority, ds, events, locals, id);
    }
    assert Records(q, full, ids) == Records(q, held, ids);
  }

  // ----- Every run below capacity -----

  function Deliveries(arrivals: seq<Arrival>): seq<RelayEvent> {
    seq(|arrivals|, i requires 0 <= i < |arrivals| => arrivals[i].delivery)
  }

  lemma DeliveriesAreTheLog(arrivals: seq<Arrival>)
    ensures Elements(Deliveries(arrivals)) == LogOf(arrivals)
  {
    forall a | a in arrivals
      ensures a.delivery in Deliveries(arrivals)
    {
      var i :| 0 <= i < |arrivals| && arrivals[i] == a;
      assert Deliveries(arrivals)[i] == a.delivery;
    }
    forall d | d in Deliveries(arrivals)
      ensures d in LogOf(arrivals)
    {
      var i :| 0 <= i < |arrivals| && Deliveries(arrivals)[i] == d;
      assert arrivals[i] in arrivals;
    }
  }

  /** Retention preserves answers: over every log of one authority without deletions or
      expirations that never fills the cache, any query by author and kind, whatever its
      relays, order and limit, is answered alike from the cache and from the full log. */
  lemma RetentionPreservesAnswers(capacity: Capacity, signed: EventId -> Event, authority: Authority,
                                  arrivals: seq<Arrival>,
                                  locals: seq<Contribution>, q: Query)
    requires Lasting(signed, LogOf(arrivals)) && NeverFull(capacity, arrivals) && GenuineLocals(signed, locals)
    requires forall a :: a in arrivals ==>
                           a.delivery.occurrence.authority == authority && a.delivery.event.kind != DELETION
    requires ByAuthorAndKind(q.selection)
    ensures Answer(q, Relays(Values(Retain(capacity, arrivals))) + locals)
            == Answer(q, Relays(Deliveries(arrivals)) + locals)
  {
    assert Unshadowed(LogOf(arrivals));
    RetainReflects(capacity, signed, arrivals);
    RetainedAreDelivered(capacity, arrivals);
    DeliveriesAreTheLog(arrivals);
    var ds, events := Deliveries(arrivals), Retain(capacity, arrivals);
    assert forall d :: d in ds ==> d in LogOf(arrivals);
    assert forall d :: d in LogOf(arrivals) ==> d in Elements(ds);
    SameAnswer(q, signed, authority, ds, events, locals);
  }
}
