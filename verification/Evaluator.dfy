/** The full-reevaluation query oracle. */
module Evaluator {
  import opened Prelude
  import opened Orders
  import opened Events
  import opened EventState

  // ----- Queries and contributions -----

  /** Present empty axes match nothing; absent ones are unconstrained. */
  datatype Selection = Selection(
    ids: Option<set<EventId>>,
    authors: Option<set<PublicKey>>,
    kinds: Option<set<Kind>>,
    tags: map<string, set<string>>,
    unbound: bool)

  datatype Ordering = NewestFirst | OldestFirst

  /** `relays` is the closed relay set of a relay-only query; without one any local source answers. */
  datatype Query = Query(
    selection: Selection,
    relays: Option<set<RelayUrl>>,
    access: Authority,
    ordering: Ordering,
    limit: Option<nat>)

  type Evidence = nat

  datatype Contribution =
    | Relay(delivery: RelayEvent)
    | Local(event: Event, isSigned: bool, publication: Evidence)

  function EventOf(c: Contribution): Event {
    match c
    case Relay(delivery) => delivery.event
    case Local(event, _, _) => event
  }

  datatype Candidate = Candidate(event: Event, isSigned: bool, relay: seq<RelayEvent>, publication: Option<Evidence>)

  datatype Record = Record(event: Event, isSigned: bool, occurrences: map<RelayUrl, RelayOccurrence>,
                           publication: Option<Evidence>)

  predicate MatchesNothing(s: Selection) {
    || s.unbound || s.ids == Some({}) || s.authors == Some({}) || s.kinds == Some({})
    || exists name :: name in s.tags && s.tags[name] == {}
  }

  predicate Allows<T(==)>(axis: Option<set<T>>, x: T) {
    axis.None? || x in axis.value
  }

  predicate CarriesTag(e: Event, name: string, values: set<string>) {
    exists t :: t in e.tags && Named(t, name) && |t.values| > 1 && t.values[1] in values
  }

  predicate Selects(s: Selection, e: Event) {
    && Allows(s.ids, e.id) && Allows(s.authors, e.author) && Allows(s.kinds, e.kind)
    && forall name :: name in s.tags ==> CarriesTag(e, name, s.tags[name])
  }

  /** A delivery must carry the query's exact authority, from an allowed relay. */
  predicate Qualifies(q: Query, c: Contribution) {
    match c
    case Relay(delivery) => delivery.occurrence.authority == q.access && Allows(q.relays, delivery.occurrence.session)
    case Local(_, _, _) => q.relays.None?
  }

  // ----- One event's evidence -----

  /** Folds one contribution into what is known of its event; a signed copy replaces an unsigned one. */
  function Merge(known: Option<Candidate>, c: Contribution): Candidate {
    match c
    case Relay(delivery) =>
      var base := if known.None? then Candidate(delivery.event, true, [], None) else known.value;
      Candidate(if base.isSigned then base.event else delivery.event, true, base.relay + [delivery], base.publication)
    case Local(event, isSigned, publication) =>
      var base := if known.None? then Candidate(event, isSigned, [], None) else known.value;
      Candidate(
        if isSigned then event else base.event,
        isSigned || base.isSigned,
        base.relay,
        if base.publication.None? then Some(publication) else base.publication)
  }

  /** The qualifying contributions of one event, merged in order. */
  function CandidateOf(q: Query, cs: seq<Contribution>, id: EventId): Option<Candidate> {
    if cs == [] then None
    else
      var last, before := cs[|cs| - 1], CandidateOf(q, cs[..|cs| - 1], id);
      if Qualifies(q, last) && EventOf(last).id == id then Some(Merge(before, last)) else before
  }

  /** Per session the first occurrence, at the earliest time any occurrence was observed. */
  function Occurrences(relay: seq<RelayEvent>): map<RelayUrl, RelayOccurrence> {
    if relay == [] then map[]
    else
      var last, before := relay[|relay| - 1].occurrence, Occurrences(relay[..|relay| - 1]);
      if last.session !in before then before[last.session := last]
      else if last.observedAt < before[last.session].observedAt
      then before[last.session := before[last.session].(observedAt := last.observedAt)]
      else before
  }

  function RecordOf(c: Candidate): Record {
    Record(c.event, c.isSigned, Occurrences(c.relay), c.publication)
  }

  // ----- The answer -----

  /** Every event some qualifying contribution carries. */
  function Candidates(q: Query, cs: seq<Contribution>): set<EventId> {
    set c | c in cs && Qualifies(q, c) :: EventOf(c).id
  }

  predicate Selected(q: Query, cs: seq<Contribution>, id: EventId) {
    CandidateOf(q, cs, id).Some? && Selects(q.selection, CandidateOf(q, cs, id).value.event)
  }

  predicate Outranks(q: Query, cs: seq<Contribution>, other: EventId, id: EventId)
    requires CandidateOf(q, cs, id).Some?
  {
    && Selected(q, cs, other)
    && CoordinateOf(CandidateOf(q, cs, other).value.event) == CoordinateOf(CandidateOf(q, cs, id).value.event)
    && IsNewer(CandidateOf(q, cs, other).value.event, CandidateOf(q, cs, id).value.event)
  }

  /** The selected events that no selected event outranks at their coordinate. */
  function Winners(q: Query, cs: seq<Contribution>): set<EventId> {
    set id | id in Candidates(q, cs) && Selected(q, cs, id)
             && !(exists other :: other in Candidates(q, cs) && Outranks(q, cs, other, id))
  }

  predicate ComesBefore(ordering: Ordering, a: Record, b: Record) {
    match ordering
    case NewestFirst => a.event.createdAt > b.event.createdAt
                        || (a.event.createdAt == b.event.createdAt && a.event.id >= b.event.id)
    case OldestFirst => a.event.createdAt < b.event.createdAt
                        || (a.event.createdAt == b.event.createdAt && a.event.id <= b.event.id)
  }

  function AnswerOrder(ordering: Ordering): (Record, Record) -> bool {
    (a: Record, b: Record) => ComesBefore(ordering, a, b)
  }

  function Records(q: Query, cs: seq<Contribution>, ids: seq<EventId>): seq<Record>
    requires forall id :: id in ids ==> CandidateOf(q, cs, id).Some?
  {
    seq(|ids|, i requires 0 <= i < |ids| => assert ids[i] in ids; RecordOf(CandidateOf(q, cs, ids[i]).value))
  }

  function Limited(limit: Option<nat>, records: seq<Record>): seq<Record> {
    if limit.Some? && limit.value < |records| then records[..limit.value] else records
  }

  function Answer(q: Query, cs: seq<Contribution>): seq<Record> {
    if MatchesNothing(q.selection) then []
    else Limited(q.limit, SortBy(Records(q, cs, Ascending(Winners(q, cs))), AnswerOrder(q.ordering)))
  }

  // ----- Facts about merging -----

  lemma {:induction false} CandidateExists(q: Query, cs: seq<Contribution>, id: EventId)
    ensures CandidateOf(q, cs, id).Some? <==> id in Candidates(q, cs)
  {
    if cs != [] {
      var n := |cs| - 1;
      CandidateExists(q, cs[..n], id);
      assert cs == cs[..n] + [cs[n]];
      if id in Candidates(q, cs[..n]) {
        var c :| c in cs[..n] && Qualifies(q, c) && EventOf(c).id == id;
        assert c in cs;
      }
      if id in Candidates(q, cs) {
        var c :| c in cs && Qualifies(q, c) && EventOf(c).id == id;
        assert c == cs[n] || c in cs[..n];
      }
    }
  }

  /** Every delivery merged under an id carries that id, so no record is ever refused. */
  lemma {:induction false} CandidateIds(q: Query, cs: seq<Contribution>, id: EventId)
    ensures CandidateOf(q, cs, id).Some? ==>
              && CandidateOf(q, cs, id).value.event.id == id
              && forall d :: d in CandidateOf(q, cs, id).value.relay ==> d.event.id == id
  {
    if cs != [] {
      CandidateIds(q, cs[..|cs| - 1], id);
    }
  }

  lemma AnswerOrderTotal(ordering: Ordering)
    ensures TotalPreorder(AnswerOrder(ordering))
  {
  }
}
