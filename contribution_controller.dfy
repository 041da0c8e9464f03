/** The contribution handlers: the filtered, paginated list, and create,
    update and delete, each followed by a recompute of the stats of the
    affected festival. */
module ContributionController {
  import opened Common
  import opened Constants
  import opened Sums
  import opened ContributionModel
  import opened ExpenseModel
  import opened FestivalModel
  import opened Database
  import opened Utility
  import opened Listing

  /** The list query this model keeps (search is not part of it). */
  datatype ContributionQuery = ContributionQuery(
    page: Option<int>,
    limit: Option<int>,
    sortOrder: Option<string>,
    festivalId: Option<ObjectId>,
    contributorId: Option<ObjectId>,
    status: Option<string>,
    kind: Option<string>,
    startDate: Option<int>,
    endDate: Option<int>,
    minAmount: Option<int>,
    maxAmount: Option<int>)

  /** An inclusive range with optional ends (`$gte`, `$lte`). */
  datatype Bounds = Bounds(gte: Option<int>, lte: Option<int>)

  /** The match stage: a field is constrained only when present. */
  datatype ContributionMatch = ContributionMatch(
    festivalId: Option<ObjectId>,
    contributorId: Option<ObjectId>,
    status: Option<string>,
    kind: Option<string>,
    date: Option<Bounds>,
    amount: Option<Bounds>)

  predicate WithinBounds(v: int, b: Bounds) {
    (b.gte.Some? ==> b.gte.value <= v) && (b.lte.Some? ==> v <= b.lte.value)
  }

  /** How the database applies the match stage. A range on `amount` never
      matches a contribution that has no amount. */
  predicate SatisfiesMatch(c: Contribution, m: ContributionMatch) {
    && (m.festivalId.Some? ==> c.festivalId == m.festivalId.value)
    && (m.contributorId.Some? ==> c.contributorId == m.contributorId.value)
    && (m.status.Some? ==> StatusName(c.status) == m.status.value)
    && (m.kind.Some? ==> TypeName(c.kind) == m.kind.value)
    && (m.date.Some? ==> WithinBounds(c.date, m.date.value))
    && (m.amount.Some? ==> c.amount.Some? && WithinBounds(c.amount.value, m.amount.value))
  }

  /** What a query admits, filter by filter: every supplied equality filter
      must hold, the dates and the amounts have independent optional
      inclusive bounds, and an absent filter imposes nothing. */
  predicate QueryAdmits(c: Contribution, q: ContributionQuery) {
    && (q.festivalId.Some? ==> c.festivalId == q.festivalId.value)
    && (q.contributorId.Some? ==> c.contributorId == q.contributorId.value)
    && (Truthy(q.status) ==> StatusName(c.status) == q.status.value)
    && (Truthy(q.kind) ==> TypeName(c.kind) == q.kind.value)
    && (q.startDate.Some? ==> q.startDate.value <= c.date)
    && (q.endDate.Some? ==> c.date <= q.endDate.value)
    && (q.minAmount.Some? ==> c.amount.Some? && q.minAmount.value <= c.amount.value)
    && (q.maxAmount.Some? ==> c.amount.Some? && c.amount.value <= q.maxAmount.value)
  }

  /** The spread expression that builds the match stage from the query; the
      stage it builds admits exactly what the query admits. */
  function BuildMatchStage(q: ContributionQuery): (m: ContributionMatch)
    ensures forall c :: SatisfiesMatch(c, m) <==> QueryAdmits(c, q)
  {
    ContributionMatch(
      q.festivalId,
      q.contributorId,
      if Truthy(q.status) then q.status else None,
      if Truthy(q.kind) then q.kind else None,
      if q.startDate.Some? || q.endDate.Some? then Some(Bounds(q.startDate, q.endDate)) else None,
      if q.minAmount.Some? || q.maxAmount.Some? then Some(Bounds(q.minAmount, q.maxAmount)) else None)
  }

  /** The contributions the match stage keeps, in ledger order, each as often as stored. */
  function FilterContributions(cs: seq<Contribution>, m: ContributionMatch): (r: seq<Contribution>)
    ensures forall c :: multiset(r)[c] == if SatisfiesMatch(c, m) then multiset(cs)[c] else 0
  {
    if cs == [] then []
    else
      assert cs == [cs[0]] + cs[1..];
      (if SatisfiesMatch(cs[0], m) then [cs[0]] else []) + FilterContributions(cs[1..], m)
  }

  /** `getAllContributions` without search or sorting: the contributions the
      query admits, paginated. */
  function ListContributions(cs: seq<Contribution>, q: ContributionQuery): (r: Result<Page<Contribution>, ApiError>)
    ensures r == Paginate(FilterContributions(cs, BuildMatchStage(q)), q.page, q.limit)
    ensures r.Ok? ==> forall c :: c in r.value.items ==> c in cs && QueryAdmits(c, q)
    ensures r.Ok? ==> r.value.meta.total == |FilterContributions(cs, BuildMatchStage(q))|
    ensures q.page.Some? && q.limit.Some? ==> (r.Err? <==> q.limit.value < 1 || q.page.value < 1)
    ensures !(q.page.Some? && q.limit.Some?) ==>
      && r.Ok?
      && forall c :: multiset(r.value.items)[c] == if QueryAdmits(c, q) then multiset(cs)[c] else 0
  {
    var rows := FilterContributions(cs, BuildMatchStage(q));
    var result := Paginate(rows, q.page, q.limit);
    assert forall c :: c in rows ==> multiset(rows)[c] > 0;
    result
  }

  /** `createContribution`: the schema checks and completes the body; the
      stored contribution triggers a recompute of its festival's stats. */
  method CreateContribution(db: Db, input: ContributionInput, now: int) returns (r: Result<Contribution, ApiError>)
    requires db.Valid()
    modifies db
    ensures db.Valid()
    ensures r == NewContribution(input, old(db.nextId), now)
    ensures r.Err? ==> unchanged(db)
    ensures r.Ok? ==>
      && db.contributions == old(db.contributions) + [r.value]
      && db.expenses == old(db.expenses)
      && db.nextId == old(db.nextId) + 1
      && db.festivals == Recomputed(old(db.festivals), db.contributions, db.expenses, r.value.festivalId)
  {
    r := NewContribution(input, db.nextId, now);
    if r.Err? {
      return;
    }
    var contribution := r.value;
    db.contributions := db.contributions + [contribution];
    db.nextId := db.nextId + 1;
    var _ := UpdateFestivalStats(db, contribution.festivalId);
  }

  /** A contribution created without a status is pending, so it adds its
      amount to the pending figure of its festival and nothing to the
      collected total or the balance. */
  lemma DefaultStatusCountsAsPending(opening: int, cs: seq<Contribution>, es: seq<Expense>,
                                     input: ContributionInput, id: ObjectId, now: int)
    requires ContributionAccepted(input) && input.status.None?
    ensures var c := NewContribution(input, id, now).value;
      var fid := input.festivalId.value;
      var before, after := Snapshot(opening, cs, es, fid), Snapshot(opening, cs + [c], es, fid);
      && after.pendingAmount == before.pendingAmount + input.amount.GetOr(0)
      && after.totalCollected == before.totalCollected
      && after.currentBalance == before.currentBalance
  {
    AppendContribution(opening, cs, es, NewContribution(input, id, now).value, input.festivalId.value);
  }

  /** The fields an update body may set; any of them, the festival included. */
  datatype ContributionPatch = ContributionPatch(
    contributorId: Option<ObjectId>,
    festivalId: Option<ObjectId>,
    kind: Option<ContributionType>,
    status: Option<ContributionStatus>,
    date: Option<int>,
    amount: Option<int>,
    itemName: Option<string>,
    quantity: Option<int>,
    estimatedValue: Option<int>)

  /** The document `findByIdAndUpdate` returns with `{ new: true }`: the
      supplied fields replaced, every other field and the id kept. */
  function ApplyPatch(c: Contribution, p: ContributionPatch): (r: Contribution)
    ensures r.id == c.id
    ensures r.contributorId == p.contributorId.GetOr(c.contributorId)
    ensures r.festivalId == p.festivalId.GetOr(c.festivalId)
    ensures r.kind == p.kind.GetOr(c.kind)
    ensures r.status == p.status.GetOr(c.status)
    ensures r.date == p.date.GetOr(c.date)
    ensures r.amount == (if p.amount.Some? then p.amount else c.amount)
    ensures r.itemName == (if p.itemName.Some? then p.itemName else c.itemName)
    ensures r.quantity == (if p.quantity.Some? then p.quantity else c.quantity)
    ensures r.estimatedValue == (if p.estimatedValue.Some? then p.estimatedValue else c.estimatedValue)
    ensures p == ContributionPatch(None, None, None, None, None, None, None, None, None) ==> r == c
  {
    Contribution(
      c.id,
      p.contributorId.GetOr(c.contributorId),
      p.festivalId.GetOr(c.festivalId),
      p.kind.GetOr(c.kind),
      p.status.GetOr(c.status),
      p.date.GetOr(c.date),
      if p.amount.Some? then p.amount else c.amount,
      if p.itemName.Some? then p.itemName else c.itemName,
      if p.quantity.Some? then p.quantity else c.quantity,
      if p.estimatedValue.Some? then p.estimatedValue else c.estimatedValue)
  }

  /** Sending the same update twice stores the same document as sending it once. */
  lemma PatchIdempotent(c: Contribution, p: ContributionPatch)
    ensures ApplyPatch(ApplyPatch(c, p), p) == ApplyPatch(c, p)
  {
  }

  /** `updateContribution`: 404 without any recompute for an unknown id;
      otherwise the patched document replaces the stored one and the stats of
      the festival it now belongs to are recomputed. */
  method UpdateContribution(db: Db, id: ObjectId, patch: ContributionPatch) returns (r: Result<Contribution, ApiError>)
    requires db.Valid()
    modifies db
    ensures db.Valid()
    ensures FindContribution(old(db.contributions), id).None? <==> r == Err(NotFound)
    ensures FindContribution(old(db.contributions), id).Some? ==> r.Ok?
    ensures r.Err? ==> unchanged(db)
    ensures r.Ok? ==>
      var i := FindContribution(old(db.contributions), id).value;
      && r.value == ApplyPatch(old(db.contributions)[i], patch)
      && db.contributions == old(db.contributions)[i := r.value]
      && db.expenses == old(db.expenses)
      && db.nextId == old(db.nextId)
      && db.festivals == Recomputed(old(db.festivals), db.contributions, db.expenses, r.value.festivalId)
  {
    var found := FindContribution(db.contributions, id);
    if found.None? {
      return Err(NotFound);
    }
    var i := found.value;
    var updated := ApplyPatch(db.contributions[i], patch);
    db.contributions := db.contributions[i := updated];
    var _ := UpdateFestivalStats(db, updated.festivalId);
    r := Ok(updated);
  }

  /** `deleteContribution`: 404 without any recompute for an unknown id;
      otherwise the document is removed and the stats of the festival it
      belonged to are recomputed, without it; the answer carries no data. */
  method DeleteContribution(db: Db, id: ObjectId) returns (r: Result<(), ApiError>)
    requires db.Valid()
    modifies db
    ensures db.Valid()
    ensures FindContribution(old(db.contributions), id).None? <==> r == Err(NotFound)
    ensures FindContribution(old(db.contributions), id).Some? ==> r.Ok?
    ensures r.Err? ==> unchanged(db)
    ensures r.Ok? ==>
      var i := FindContribution(old(db.contributions), id).value;
      var fid := old(db.contributions)[i].festivalId;
      && db.contributions == RemoveAt(old(db.contributions), i)
      && (forall c :: c in db.contributions ==> c.id != id)
      && db.expenses == old(db.expenses)
      && db.nextId == old(db.nextId)
      && db.festivals == Recomputed(old(db.festivals), db.contributions, db.expenses, fid)
  {
    var found := FindContribution(db.contributions, id);
    if found.None? {
      return Err(NotFound);
    }
    var i := found.value;
    var deleted := db.contributions[i];
    ghost var before := db.contributions;
    db.contributions := RemoveAt(db.contributions, i);
    forall c | c in db.contributions ensures c.id != id {
      var k :| 0 <= k < |db.contributions| && db.contributions[k] == c;
      if k < i {
        assert c == before[k];
      } else {
        assert c == before[k + 1];
      }
    }
    var _ := UpdateFestivalStats(db, deleted.festivalId);
    r := Ok(());
  }
}
