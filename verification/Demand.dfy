/** Logical relay demand, what a relay declared, and the foreign encoding it is measured by. */
module Demand {
  import opened Prelude
  import opened Orders
  import opened Events
  import opened Filters

  /** Identity of one observation's branch, ordered by owner and then branch. */
  datatype DemandId = DemandId(owner: nat, branch: nat)

  type SubscriptionId = nat

  datatype QueryBounds = QueryBounds(since: Option<Timestamp>, until: Option<Timestamp>, limit: Option<nat>)

  datatype RelayDemand = RelayDemand(id: DemandId, filter: Filter, bounds: QueryBounds)

  type Positive = n: nat | n > 0 witness 1

  /** Limits a relay declared; `None` is an honest absence, never a default. */
  datatype Constraints = Constraints(
    maxSubscriptions: Option<Positive>,
    maxMessageBytes: Option<Positive>,
    maxFilterLimit: Option<Positive>,
    defaultFilterLimit: Option<Positive>)

  /** The foreign encoding: the byte length of the REQ carrying one filter, the
      order of canonical filter texts, and the order of filter lists. */
  datatype Wire = Wire(
    size: Filter -> nat,
    before: (Filter, Filter) -> bool,
    listBefore: (seq<Filter>, seq<Filter>) -> bool)

  /** Joining values into one axis never shortens the request. */
  ghost predicate SizeGrows(w: Wire) {
    forall left, right :: MergeOnSoleDifferingAxis(left, right).Some? ==>
      && w.size(left) <= w.size(MergeOnSoleDifferingAxis(left, right).value)
      && w.size(right) <= w.size(MergeOnSoleDifferingAxis(left, right).value)
  }

  /** Canonical texts are injective and totally ordered. */
  ghost predicate OrderedTexts(w: Wire) {
    TotalOrder(w.before) && TotalOrder(w.listBefore)
  }

  predicate IdLeq(a: DemandId, b: DemandId) {
    a.owner < b.owner || (a.owner == b.owner && a.branch <= b.branch)
  }

  lemma IdLeqAntisymmetric(a: DemandId, b: DemandId)
    requires IdLeq(a, b) && IdLeq(b, a)
    ensures a == b
  {
    assert a == DemandId(a.owner, a.branch) && b == DemandId(b.owner, b.branch);
  }

  function Ids(demand: seq<RelayDemand>): set<DemandId> {
    set d | d in demand :: d.id
  }

  /** No two demands of one call share an identity. */
  ghost predicate DistinctIds(demand: seq<RelayDemand>) {
    forall i, j :: 0 <= i < j < |demand| ==> demand[i].id != demand[j].id
  }

  /** Canonical order: filter text first, then identity. */
  predicate DemandLeq(w: Wire, a: RelayDemand, b: RelayDemand) {
    if a.filter == b.filter then IdLeq(a.id, b.id) else w.before(a.filter, b.filter)
  }

  function DemandOrder(w: Wire): (RelayDemand, RelayDemand) -> bool {
    (a: RelayDemand, b: RelayDemand) => DemandLeq(w, a, b)
  }

  lemma DemandOrderTotal(w: Wire)
    requires TotalOrder(w.before)
    ensures TotalPreorder(DemandOrder(w))
  {
    var leq := DemandOrder(w);
    forall x, y
      ensures leq(x, y) || leq(y, x)
    {
      assert DemandLeq(w, x, y) || DemandLeq(w, y, x);
    }
    forall x, y, z | leq(x, y) && leq(y, z)
      ensures leq(x, z)
    {
      assert DemandLeq(w, x, y) && DemandLeq(w, y, z);
      assert DemandLeq(w, x, z);
    }
  }

  lemma DemandOrderSeparates(w: Wire, demand: seq<RelayDemand>)
    requires TotalOrder(w.before) && DistinctIds(demand)
    ensures Separates(DemandOrder(w), demand)
  {
    forall x, y | x in demand && y in demand && DemandOrder(w)(x, y) && DemandOrder(w)(y, x)
      ensures x == y
    {
      var i :| 0 <= i < |demand| && demand[i] == x;
      var j :| 0 <= j < |demand| && demand[j] == y;
      assert DemandLeq(w, x, y) && DemandLeq(w, y, x);
      assert x.filter == y.filter;
      IdLeqAntisymmetric(x.id, y.id);
    }
  }

  lemma DistinctIdsIsDistinct(demand: seq<RelayDemand>)
    requires DistinctIds(demand)
    ensures Distinct(demand)
  {
  }

  lemma SameIdSameDemand(demand: seq<RelayDemand>, a: RelayDemand, b: RelayDemand)
    requires DistinctIds(demand) && a in demand && b in demand && a.id == b.id
    ensures a == b
  {
    var i :| 0 <= i < |demand| && demand[i] == a;
    var j :| 0 <= j < |demand| && demand[j] == b;
  }

  /** Arrangements of one demand set agree on whether identities are distinct. */
  lemma DistinctIdsPermutation(a: seq<RelayDemand>, b: seq<RelayDemand>)
    requires multiset(a) == multiset(b) && DistinctIds(a)
    ensures DistinctIds(b)
  {
    DistinctIdsIsDistinct(a);
    DistinctPermutation(a, b);
    forall i, j | 0 <= i < j < |b|
      ensures b[i].id != b[j].id
    {
      MultisetMember(a, b, b[i]);
      MultisetMember(a, b, b[j]);
      if b[i].id == b[j].id {
        SameIdSameDemand(a, b[i], b[j]);
      }
    }
  }
}
