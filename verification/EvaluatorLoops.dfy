/** The evaluator's loops over candidate and winner maps, proved against the answer they must give. */
module EvaluatorLoops {
  import opened Prelude
  import opened Orders
  import opened Events
  import opened EventState
  import opened Evaluator

  /** Aggregates one event's occurrences; refuses a contribution of another event. */
  method RelayOccurrencesForEvent(id: EventId, relay: seq<RelayEvent>)
    returns (r: Option<map<RelayUrl, RelayOccurrence>>)
    ensures r == if forall d :: d in relay ==> d.event.id == id then Some(Occurrences(relay)) else None
  {
    if exists d :: d in relay && d.event.id != id {
      return None;
    }
    var occurrences := map[];
    for i := 0 to |relay|
      invariant occurrences == Occurrences(relay[..i])
    {
      var incoming := relay[i].occurrence;
      assert relay[..i + 1][..i] == relay[..i];
      if incoming.session !in occurrences {
        occurrences := occurrences[incoming.session := incoming];
      } else if incoming.observedAt < occurrences[incoming.session].observedAt {
        var known := occurrences[incoming.session];
        occurrences := occurrences[incoming.session := known.(observedAt := incoming.observedAt)];
      }
    }
    assert relay[..|relay|] == relay;
    return Some(occurrences);
  }

  // ----- Merging every source -----

  ghost predicate Merged(q: Query, cs: seq<Contribution>, byId: map<EventId, Candidate>) {
    forall id: EventId :: (if id in byId then Some(byId[id]) else None) == CandidateOf(q, cs, id)
  }

  method MergeContribution(q: Query, ghost before: seq<Contribution>, byId: map<EventId, Candidate>, c: Contribution)
    returns (r: map<EventId, Candidate>)
    requires Merged(q, before, byId)
    ensures Merged(q, before + [c], r)
  {
    assert (before + [c])[..|before|] == before;
    r := byId;
    if Qualifies(q, c) {
      var id := EventOf(c).id;
      r := byId[id := Merge(if id in byId then Some(byId[id]) else None, c)];
    }
  }

  method MergeSources(q: Query, sources: seq<seq<Contribution>>) returns (byId: map<EventId, Candidate>)
    ensures Merged(q, Flatten(sources), byId)
  {
    byId := map[];
    ghost var before: seq<Contribution> := [];
    for i := 0 to |sources|
      invariant before == Flatten(sources[..i]) && Merged(q, before, byId)
    {
      var source := sources[i];
      ghost var start := before;
      for j := 0 to |source|
        invariant before == start + source[..j] && Merged(q, before, byId)
      {
        byId := MergeContribution(q, before, byId, source[j]);
        before := before + [source[j]];
      }
      assert source[..|source|] == source;
      assert sources[..i + 1] == sources[..i] + [source];
      FlattenAppend(sources[..i], [source]);
    }
    assert sources[..|sources|] == sources;
  }

  // ----- Selected records -----

  /** The selected records of the ids seen so far, in id order. */
  ghost predicate SelectedRecords(q: Query, cs: seq<Contribution>, ids: set<EventId>, records: seq<Record>) {
    && (forall i, j :: 0 <= i < j < |records| ==> records[i].event.id != records[j].event.id)
    && (forall r :: r in records
                    <==> r.event.id in ids && Selected(q, cs, r.event.id)
                         && r == RecordOf(CandidateOf(q, cs, r.event.id).value))
  }

  method SelectRecords(q: Query, ghost cs: seq<Contribution>, byId: map<EventId, Candidate>)
    returns (r: Result<seq<Record>, EventId>)
    requires Merged(q, cs, byId)
    ensures r.Ok? && SelectedRecords(q, cs, byId.Keys, r.value)
  {
    var ids := Ascending(byId.Keys);
    AscendingSorted(byId.Keys);
    var records := [];
    for i := 0 to |ids|
      invariant SelectedRecords(q, cs, Elements(ids[..i]), records)
    {
      var id := ids[i];
      assert id in ids && byId[id] == CandidateOf(q, cs, id).value;
      CandidateIds(q, cs, id);
      var candidate := byId[id];
      var occurrences := RelayOccurrencesForEvent(id, candidate.relay);
      if occurrences.None? {
        return Err(id);
      }
      var record := Record(candidate.event, candidate.isSigned, occurrences.value, candidate.publication);
      assert Elements(ids[..i + 1]) == Elements(ids[..i]) + {id};
      ghost var before := records;
      if Selects(q.selection, record.event) {
        records := records + [record];
      }
      OneMoreRecord(q, cs, Elements(ids[..i]), before, id, record, records);
    }
    assert Elements(ids[..|ids|]) == byId.Keys;
    r := Ok(records);
  }

  lemma OneMoreRecord(q: Query, cs: seq<Contribution>, ids: set<EventId>, before: seq<Record>, id: EventId,
                      record: Record, records: seq<Record>)
    requires SelectedRecords(q, cs, ids, before) && id !in ids
    requires CandidateOf(q, cs, id).Some? && record == RecordOf(CandidateOf(q, cs, id).value) && record.event.id == id
    requires records == if Selects(q.selection, record.event) then before + [record] else before
    ensures SelectedRecords(q, cs, ids + {id}, records)
  {
  }

  // ----- Coordinate winners -----

  ghost predicate Unbeaten(records: seq<Record>, r: Record) {
    r in records && forall x :: x in records && CoordinateOf(x.event) == CoordinateOf(r.event) ==>
                                  !IsNewer(x.event, r.event)
  }

  /** Under each coordinate seen, an unbeaten record of that coordinate. */
  ghost predicate Best(records: seq<Record>, best: map<Coordinate, Record>) {
    && (forall c :: c in best ==> Unbeaten(records, best[c]) && CoordinateOf(best[c].event) == c)
    && (forall x :: x in records ==> CoordinateOf(x.event) in best)
  }

  method InsertNewest(ghost before: seq<Record>, best: map<Coordinate, Record>, incoming: Record)
    returns (r: map<Coordinate, Record>)
    requires Best(before, best)
    ensures Best(before + [incoming], r)
  {
    var c := CoordinateOf(incoming.event);
    if c !in best || IsNewer(incoming.event, best[c].event) {
      r := best[c := incoming];
    } else {
      r := best;
    }
    InsertedBest(before, best, incoming, r);
  }

  lemma InsertedBest(before: seq<Record>, best: map<Coordinate, Record>, incoming: Record, r: map<Coordinate, Record>)
    requires Best(before, best)
    requires var c := CoordinateOf(incoming.event);
             r == if c !in best || IsNewer(incoming.event, best[c].event) then best[c := incoming] else best
    ensures Best(before + [incoming], r)
  {
    var records := before + [incoming];
    forall c | c in r
      ensures Unbeaten(records, r[c]) && CoordinateOf(r[c].event) == c
    {
      forall x | x in records && CoordinateOf(x.event) == CoordinateOf(r[c].event)
        ensures !IsNewer(x.event, r[c].event)
      {
        assert x in before || x == incoming;
        if c in best && r[c] == incoming {
          IsNewerStrict(x.event, incoming.event, best[c].event);
        }
      }
    }
  }

  method CoordinateWinners(records: seq<Record>) returns (winners: seq<Record>)
    requires forall i, j :: 0 <= i < j < |records| ==> records[i].event.id != records[j].event.id
    ensures Distinct(winners)
    ensures forall r :: r in winners <==> Unbeaten(records, r)
  {
    var best: map<Coordinate, Record> := map[];
    for i := 0 to |records|
      invariant Best(records[..i], best)
    {
      best := InsertNewest(records[..i], best, records[i]);
      assert records[..i + 1] == records[..i] + [records[i]];
    }
    assert records[..|records|] == records;
    winners := [];
    var coordinates := best.Keys;
    while coordinates != {}
      invariant coordinates <= best.Keys && Distinct(winners)
      invariant forall r :: r in winners
                            <==> CoordinateOf(r.event) in best.Keys - coordinates && best[CoordinateOf(r.event)] == r
      decreases |coordinates|
    {
      var c :| c in coordinates;
      winners := winners + [best[c]];
      coordinates := coordinates - {c};
    }
    forall r | Unbeaten(records, r)
      ensures r in winners
    {
      SoleWinner(records, best[CoordinateOf(r.event)], r);
    }
  }

  lemma SoleWinner(records: seq<Record>, a: Record, b: Record)
    requires Unbeaten(records, a) && Unbeaten(records, b) && CoordinateOf(a.event) == CoordinateOf(b.event)
    requires forall i, j :: 0 <= i < j < |records| ==> records[i].event.id != records[j].event.id
    ensures a == b
  {
    IsNewerStrict(a.event, b.event, a.event);
    var i :| 0 <= i < |records| && records[i] == a;
    var j :| 0 <= j < |records| && records[j] == b;
  }

  // ----- The evaluation -----

  /** Merging, selecting, keeping coordinate winners, sorting and truncating never
      refuses, and gives exactly the ordered answer. */
  method Evaluate(q: Query, sources: seq<seq<Contribution>>) returns (r: Result<seq<Record>, EventId>)
    ensures r == Ok(Answer(q, Flatten(sources)))
  {
    if MatchesNothing(q.selection) {
      return Ok([]);
    }
    ghost var cs := Flatten(sources);
    var byId := MergeSources(q, sources);
    var records := SelectRecords(q, cs, byId);
    assert byId.Keys == Candidates(q, cs) by {
      forall id: EventId
        ensures id in byId <==> id in Candidates(q, cs)
      {
        CandidateExists(q, cs, id);
        assert (if id in byId then Some(byId[id]) else None) == CandidateOf(q, cs, id);
      }
    }
    var winners := CoordinateWinners(records.value);
    WinnersArrangement(q, cs, records.value, winners);
    var events := SortBy(winners, AnswerOrder(q.ordering));
    return Ok(if q.limit.Some? && q.limit.value < |events| then events[..q.limit.value] else events);
  }

  ghost predicate IsWinner(q: Query, cs: seq<Contribution>, r: Record) {
    r.event.id in Winners(q, cs) && r == RecordOf(CandidateOf(q, cs, r.event.id).value)
  }

  lemma UnbeatenWins(q: Query, cs: seq<Contribution>, records: seq<Record>, r: Record)
    requires SelectedRecords(q, cs, Candidates(q, cs), records)
    ensures Unbeaten(records, r) <==> IsWinner(q, cs, r)
  {
    if IsWinner(q, cs, r) {
      forall x | x in records && CoordinateOf(x.event) == CoordinateOf(r.event)
        ensures !IsNewer(x.event, r.event)
      {
        assert !Outranks(q, cs, x.event.id, r.event.id);
      }
    }
    if Unbeaten(records, r) {
      forall other | other in Candidates(q, cs) && Selected(q, cs, other)
        ensures !Outranks(q, cs, other, r.event.id)
      {
        CandidateIds(q, cs, other);
        assert RecordOf(CandidateOf(q, cs, other).value) in records;
      }
    }
  }

  lemma ListedWinners(q: Query, cs: seq<Contribution>)
    ensures Distinct(Records(q, cs, Ascending(Winners(q, cs))))
    ensures forall r :: r in Records(q, cs, Ascending(Winners(q, cs))) <==> IsWinner(q, cs, r)
  {
    AscendingSorted(Winners(q, cs));
    var ids := Ascending(Winners(q, cs));
    var listed := Records(q, cs, ids);
    forall i | 0 <= i < |ids|
      ensures listed[i].event.id == ids[i] && IsWinner(q, cs, listed[i])
    {
      assert ids[i] in ids;
      CandidateIds(q, cs, ids[i]);
    }
    forall r | IsWinner(q, cs, r)
      ensures r in listed
    {
      assert r.event.id in ids;
      var i :| 0 <= i < |ids| && ids[i] == r.event.id;
      assert listed[i] == r;
    }
  }

  /** The collected winners are an arrangement of the answer's records, so they sort alike. */
  lemma WinnersArrangement(q: Query, cs: seq<Contribution>, records: seq<Record>, winners: seq<Record>)
    requires SelectedRecords(q, cs, Candidates(q, cs), records)
    requires Distinct(winners) && forall r :: r in winners <==> Unbeaten(records, r)
    ensures SortBy(winners, AnswerOrder(q.ordering))
            == SortBy(Records(q, cs, Ascending(Winners(q, cs))), AnswerOrder(q.ordering))
  {
    var listed := Records(q, cs, Ascending(Winners(q, cs)));
    ListedWinners(q, cs);
    forall r
      ensures r in winners <==> IsWinner(q, cs, r)
    {
      UnbeatenWins(q, cs, records, r);
    }
    SameSorted(q, cs, winners, listed);
  }

  lemma SameSorted(q: Query, cs: seq<Contribution>, winners: seq<Record>, listed: seq<Record>)
    requires Distinct(winners) && Distinct(listed)
    requires forall r :: r in winners <==> IsWinner(q, cs, r)
    requires forall r :: r in listed <==> IsWinner(q, cs, r)
    ensures SortBy(winners, AnswerOrder(q.ordering)) == SortBy(listed, AnswerOrder(q.ordering))
  {
    SameMembersPermute(winners, listed);
    AnswerOrderTotal(q.ordering);
    assert Separates(AnswerOrder(q.ordering), winners);
    SortByPermutation(winners, listed, AnswerOrder(q.ordering));
  }
}
