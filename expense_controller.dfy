/** The expense handlers: create, partial update and delete, each followed by
    a recompute of the festival's stats, and the filtered, paginated list. */
module ExpenseController {
  import opened Common
  import opened Constants
  import opened Sums
  import opened ExpenseModel
  import opened FestivalModel
  import opened Database
  import opened Utility
  import opened Listing

  /** What a successful create or update answers: the stored expense and the
      fresh snapshot of its festival. */
  datatype ExpenseResponse = ExpenseResponse(expense: Expense, festivalStats: Stats)

  /** The guard `!festivalId || !category || !amount`: an absent field, an
      empty category and an amount of 0 are all falsy. */
  predicate RequiredFieldsPresent(input: ExpenseInput) {
    input.festivalId.Some? && Truthy(input.category) && input.amount.Some? && input.amount.value != 0
  }

  /** `createExpense`: refuses a falsy required field with 400 before touching
      the database, lets the schema refuse an unknown category, otherwise
      stores the new expense and recomputes its festival's stats. */
  method CreateExpense(db: Db, input: ExpenseInput, now: int) returns (r: Result<ExpenseResponse, ApiError>)
    requires db.Valid()
    modifies db
    ensures db.Valid()
    ensures !RequiredFieldsPresent(input) ==> r == Err(BadRequest)
    ensures RequiredFieldsPresent(input) && !ExpenseAccepted(input) ==> r == Err(Invalid)
    ensures r.Ok? <==> RequiredFieldsPresent(input) && ExpenseAccepted(input)
    ensures r.Err? ==> unchanged(db)
    ensures r.Ok? ==>
      var e, fid := r.value.expense, r.value.expense.festivalId;
      && Ok(e) == NewExpense(input, old(db.nextId), now)
      && db.expenses == old(db.expenses) + [e]
      && db.contributions == old(db.contributions)
      && db.nextId == old(db.nextId) + 1
      && r.value.festivalStats == Snapshot(OpeningOf(old(db.festivals), fid), db.contributions, db.expenses, fid)
      && db.festivals == Recomputed(old(db.festivals), db.contributions, db.expenses, fid)
  {
    if !RequiredFieldsPresent(input) {
      return Err(BadRequest);
    }
    var created := NewExpense(input, db.nextId, now);
    if created.Err? {
      return Err(created.error);
    }
    var expense := created.value;
    db.expenses := db.expenses + [expense];
    db.nextId := db.nextId + 1;
    var stats := UpdateFestivalStats(db, expense.festivalId);
    r := Ok(ExpenseResponse(expense, stats));
  }

  /** The fields an update request may supply; `festivalId` is not among them. */
  datatype ExpensePatch = ExpensePatch(
    category: Option<string>,
    amount: Option<int>,
    description: Option<string>,
    date: Option<int>)

  /** `updateExpense`: 404 for an unknown id; otherwise assigns each supplied
      field of the loaded document, saves it (the schema refuses a category
      outside the enumeration, and then nothing is stored) and recomputes the
      stats of the document's festival. */
  method UpdateExpense(db: Db, id: ObjectId, patch: ExpensePatch) returns (r: Result<ExpenseResponse, ApiError>)
    requires db.Valid()
    modifies db
    ensures db.Valid()
    ensures FindExpense(old(db.expenses), id).None? ==> r == Err(NotFound)
    ensures r.Err? ==> unchanged(db)
    ensures FindExpense(old(db.expenses), id).Some? ==>
      (r.Ok? <==> patch.category.None? || ParseCategory(patch.category.value).Some?)
    ensures FindExpense(old(db.expenses), id).Some? && patch.category.Some? && ParseCategory(patch.category.value).None? ==>
      r == Err(Invalid)
    ensures r.Ok? ==>
      var i := FindExpense(old(db.expenses), id).value;
      var before, after := old(db.expenses)[i], r.value.expense;
      && after.id == id
      && after.festivalId == before.festivalId
      && (patch.category.None? ==> after.category == before.category)
      && (patch.category.Some? ==> CategoryName(after.category) == patch.category.value)
      && after.amount == patch.amount.GetOr(before.amount)
      && after.description == (if patch.description.Some? then patch.description else before.description)
      && after.date == patch.date.GetOr(before.date)
      && db.expenses == old(db.expenses)[i := after]
      && db.contributions == old(db.contributions)
      && db.nextId == old(db.nextId)
      && r.value.festivalStats == Snapshot(OpeningOf(old(db.festivals), after.festivalId), db.contributions, db.expenses, after.festivalId)
      && db.festivals == Recomputed(old(db.festivals), db.contributions, db.expenses, after.festivalId)
  {
    var found := FindExpense(db.expenses, id);
    if found.None? {
      return Err(NotFound);
    }
    var i := found.value;
    var expense := db.expenses[i];
    if patch.category.Some? {
      var category := ParseCategory(patch.category.value);
      if category.None? {
        return Err(Invalid);
      }
      expense := expense.(category := category.value);
    }
    if patch.amount.Some? {
      expense := expense.(amount := patch.amount.value);
    }
    if patch.description.Some? {
      expense := expense.(description := patch.description);
    }
    if patch.date.Some? {
      expense := expense.(date := patch.date.value);
    }
    db.expenses := db.expenses[i := expense];
    var stats := UpdateFestivalStats(db, expense.festivalId);
    r := Ok(ExpenseResponse(expense, stats));
  }

  /** `deleteExpense`: 404 for an unknown id; otherwise captures the
      festival id, removes the document and recomputes that festival's
      stats, which no longer count the removed amount. */
  method DeleteExpense(db: Db, id: ObjectId) returns (r: Result<Stats, ApiError>)
    requires db.Valid()
    modifies db
    ensures db.Valid()
    ensures FindExpense(old(db.expenses), id).None? <==> r == Err(NotFound)
    ensures FindExpense(old(db.expenses), id).Some? ==> r.Ok?
    ensures r.Err? ==> unchanged(db)
    ensures r.Ok? ==>
      var i := FindExpense(old(db.expenses), id).value;
      var fid := old(db.expenses)[i].festivalId;
      && db.expenses == RemoveAt(old(db.expenses), i)
      && (forall e :: e in db.expenses ==> e.id != id)
      && db.contributions == old(db.contributions)
      && db.nextId == old(db.nextId)
      && r.value == Snapshot(OpeningOf(old(db.festivals), fid), db.contributions, db.expenses, fid)
      && db.festivals == Recomputed(old(db.festivals), db.contributions, db.expenses, fid)
  {
    var found := FindExpense(db.expenses, id);
    if found.None? {
      return Err(NotFound);
    }
    var i := found.value;
    var festivalId := db.expenses[i].festivalId;
    ghost var old_expenses := db.expenses;
    db.expenses := RemoveAt(db.expenses, i);
    forall e | e in db.expenses ensures e.id != id {
      var k :| 0 <= k < |db.expenses| && db.expenses[k] == e;
      if k < i {
        assert e == old_expenses[k];
      } else {
        assert e == old_expenses[k + 1];
      }
    }
    var stats := UpdateFestivalStats(db, festivalId);
    r := Ok(stats);
  }

  /** The list filters this model keeps: a category and a festival. */
  datatype ExpenseQuery = ExpenseQuery(
    page: Option<int>,
    limit: Option<int>,
    sortOrder: Option<string>,
    festivalId: Option<ObjectId>,
    category: Option<string>)

  /** The match stage: a category of `All` or none imposes nothing, any other
      category must be the expense's; a festival id must be the expense's. */
  predicate ExpenseMatches(e: Expense, q: ExpenseQuery) {
    && (Truthy(q.category) && q.category.value != "All" ==> CategoryName(e.category) == q.category.value)
    && (q.festivalId.Some? ==> e.festivalId == q.festivalId.value)
  }

  /** The expenses the match stage keeps, in ledger order, each as often as stored. */
  function FilterExpenses(es: seq<Expense>, q: ExpenseQuery): (r: seq<Expense>)
    ensures forall e :: multiset(r)[e] == if ExpenseMatches(e, q) then multiset(es)[e] else 0
  {
    if es == [] then []
    else
      assert es == [es[0]] + es[1..];
      (if ExpenseMatches(es[0], q) then [es[0]] else []) + FilterExpenses(es[1..], q)
  }

  /** `getAllExpenses` without search, date range or sorting: the matching
      expenses, paginated. */
  function ListExpenses(es: seq<Expense>, q: ExpenseQuery): (r: Result<Page<Expense>, ApiError>)
    ensures r == Paginate(FilterExpenses(es, q), q.page, q.limit)
    ensures r.Ok? ==> forall e :: e in r.value.items ==> e in es && ExpenseMatches(e, q)
    ensures r.Ok? ==> r.value.meta.total == |FilterExpenses(es, q)|
    ensures q.page.Some? && q.limit.Some? ==> (r.Err? <==> q.limit.value < 1 || q.page.value < 1)
    ensures !(q.page.Some? && q.limit.Some?) ==>
      && r.Ok?
      && forall e :: multiset(r.value.items)[e] == if ExpenseMatches(e, q) then multiset(es)[e] else 0
  {
    var rows := FilterExpenses(es, q);
    var result := Paginate(rows, q.page, q.limit);
    assert result.Ok? ==> forall e :: e in result.value.items ==> e in rows;
    assert forall e :: e in rows ==> multiset(rows)[e] > 0;
    result
  }

  /** A category filter of `All` restricts no more than no category at all. */
  lemma CategoryAllIsNoFilter(e: Expense, q: ExpenseQuery)
    ensures ExpenseMatches(e, q.(category := Some("All"))) == ExpenseMatches(e, q.(category := None))
    ensures ExpenseMatches(e, q.(category := Some(""))) == ExpenseMatches(e, q.(category := None))
  {
  }
}
