/** The Contribution document: a cash or in-kind gift from a contributor to a
    festival, with its lifecycle status. */
module ContributionModel {
  import opened Common
  import opened Constants

  datatype Contribution = Contribution(
    id: ObjectId,
    contributorId: ObjectId,
    festivalId: ObjectId,
    kind: ContributionType,          // the `type` field
    status: ContributionStatus,
    date: int,                       // milliseconds since the epoch
    amount: Option<int>,             // for cash
    itemName: Option<string>,        // for items
    quantity: Option<int>,
    estimatedValue: Option<int>)

  /** A create request body as the schema receives it: every field may be missing. */
  datatype ContributionInput = ContributionInput(
    contributorId: Option<ObjectId>,
    festivalId: Option<ObjectId>,
    kind: Option<string>,
    status: Option<string>,
    date: Option<int>,
    amount: Option<int>,
    itemName: Option<string>,
    quantity: Option<int>,
    estimatedValue: Option<int>)

  /** What the schema demands before it stores a contribution: both references,
      a type from the enumeration, and a status from the enumeration when one
      is given. */
  predicate ContributionAccepted(input: ContributionInput) {
    && input.contributorId.Some?
    && input.festivalId.Some?
    && input.kind.Some? && ParseType(input.kind.value).Some?
    && (input.status.None? || ParseStatus(input.status.value).Some?)
  }

  /** The document `Contribution.create` stores for `input`, with the fresh id
      `id` and the clock reading `now`: the status defaults to pending and the
      date to the creation time; the value fields are copied as given. */
  function NewContribution(input: ContributionInput, id: ObjectId, now: int): (r: Result<Contribution, ApiError>)
    ensures r.Ok? <==> ContributionAccepted(input)
    ensures r.Err? ==> r.error == Invalid
    ensures r.Ok? ==>
      && r.value.id == id
      && Some(r.value.contributorId) == input.contributorId
      && Some(r.value.festivalId) == input.festivalId
      && Some(TypeName(r.value.kind)) == input.kind
      && (input.status.None? ==> r.value.status == Pending)
      && (input.status.Some? ==> StatusName(r.value.status) == input.status.value)
      && r.value.date == input.date.GetOr(now)
      && r.value.amount == input.amount
      && r.value.itemName == input.itemName
      && r.value.quantity == input.quantity
      && r.value.estimatedValue == input.estimatedValue
  {
    if !ContributionAccepted(input) then Err(Invalid)
    else
      var status := if input.status.Some? then ParseStatus(input.status.value).value else Pending;
      Ok(Contribution(id, input.contributorId.value, input.festivalId.value,
                      ParseType(input.kind.value).value, status, input.date.GetOr(now),
                      input.amount, input.itemName, input.quantity, input.estimatedValue))
  }

  /** No two stored contributions share an id. */
  predicate ContributionIdsDistinct(cs: seq<Contribution>) {
    forall i, j :: 0 <= i < j < |cs| ==> cs[i].id != cs[j].id
  }

  /** `Contribution.findById`: the position of the document with id `id`, if any. */
  function FindContribution(cs: seq<Contribution>, id: ObjectId): (r: Option<nat>)
    ensures r.Some? ==> r.value < |cs| && cs[r.value].id == id
    ensures r.None? ==> forall c :: c in cs ==> c.id != id
  {
    if cs == [] then None
    else if cs[0].id == id then Some(0)
    else
      var rest := FindContribution(cs[1..], id);
      if rest.Some? then Some(rest.value + 1) else None
  }
}
