/** The Expense document: a categorised cost charged to a festival. */
module ExpenseModel {
  import opened Common
  import opened Constants

  datatype Expense = Expense(
    id: ObjectId,
    festivalId: ObjectId,
    category: ExpenseCategory,
    amount: int,
    description: Option<string>,
    date: int)                      // milliseconds since the epoch

  /** A create request body as the schema receives it. */
  datatype ExpenseInput = ExpenseInput(
    festivalId: Option<ObjectId>,
    category: Option<string>,
    amount: Option<int>,
    description: Option<string>,
    date: Option<int>)

  /** What the schema demands: the festival reference, a category from the
      enumeration and an amount. */
  predicate ExpenseAccepted(input: ExpenseInput) {
    && input.festivalId.Some?
    && input.category.Some? && ParseCategory(input.category.value).Some?
    && input.amount.Some?
  }

  /** The document `Expense.create` stores for `input`: every accepted expense
      has exactly one category and a number to add to the totals; the date
      defaults to the creation time `now`. */
  function NewExpense(input: ExpenseInput, id: ObjectId, now: int): (r: Result<Expense, ApiError>)
    ensures r.Ok? <==> ExpenseAccepted(input)
    ensures r.Err? ==> r.error == Invalid
    ensures r.Ok? ==>
      && r.value.id == id
      && Some(r.value.festivalId) == input.festivalId
      && Some(CategoryName(r.value.category)) == input.category
      && Some(r.value.amount) == input.amount
      && r.value.description == input.description
      && r.value.date == input.date.GetOr(now)
  {
    if !ExpenseAccepted(input) then Err(Invalid)
    else Ok(Expense(id, input.festivalId.value, ParseCategory(input.category.value).value,
                    input.amount.value, input.description, input.date.GetOr(now)))
  }

  /** No two stored expenses share an id. */
  predicate ExpenseIdsDistinct(es: seq<Expense>) {
    forall i, j :: 0 <= i < j < |es| ==> es[i].id != es[j].id
  }

  /** `Expense.findById`: the position of the document with id `id`, if any. */
  function FindExpense(es: seq<Expense>, id: ObjectId): (r: Option<nat>)
    ensures r.Some? ==> r.value < |es| && es[r.value].id == id
    ensures r.None? ==> forall e :: e in es ==> e.id != id
  {
    if es == [] then None
    else if es[0].id == id then Some(0)
    else
      var rest := FindExpense(es[1..], id);
      if rest.Some? then Some(rest.value + 1) else None
  }
}
