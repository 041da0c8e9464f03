# Festival fund ledger and statistics

A Dafny model of the core of a festival-finance backend. Festivals collect
cash and in-kind contributions and pay categorised expenses. Every time a
contribution or an expense is created, updated or deleted, the handler
recomputes the festival's statistics snapshot from the two ledgers and writes
it onto the festival document. The snapshot holds:

- the opening balance;
- the total collected (deposited contributions);
- the pending amount (pending contributions);
- the total of expenses;
- the current balance (opening + collected − expenses);
- the per-category expense totals.

Modules follow the source files:

- `Constants`: the enumerations (`src/utils/constants.js`).
- `ContributionModel`, `ExpenseModel`, `FestivalModel`: the schemas with
  their required fields, defaults and enumerations (`src/models/*.model.js`).
  `FestivalModel` also holds the stats snapshot and the unique (name, year)
  index.
- `Database`: the in-memory database. A class `Db` holds the contribution
  and expense ledgers as sequences, the festivals as a map from id, and a
  counter that hands out fresh ids. Its `Valid()` invariant keeps ids unique
  and the (name, year) index intact.
- `Sums`: the `$sum` accumulator as a sum of per-document weights, with
  concatenation and permutation laws.
- `Utility`: the aggregator `updateFestivalStats`. The four aggregations are
  recursive sums over the ledgers. The category `reduce` is a loop. The
  snapshot write is a method on the database. The laws of the snapshot are
  lemmas in the same module.
- `Listing`: sort direction and `$facet` pagination, shared by both list
  handlers.
- `ExpenseController`, `ContributionController`: the handlers. Create,
  update and delete are methods that change the database and then call the
  aggregator. The list filters are predicates.

Behaviours of the code a reader might not expect:

- The collected and pending totals match on festival and status only; there
  is no condition on the contribution type. A deposited item contribution
  that carries an `amount` is counted as collected (`DepositedItemAmountCounts`).
  A contribution without an amount adds 0.
- The opening balance is read from the stored `stats.openingBalance`, never
  from the festival's top-level `openingBalance` field. A festival is
  created without stats, so its first recompute reads 0 and every later
  recompute carries that 0 forward. In every reachable state the opening
  read is 0 and the current balance is collected − expenses: the declared
  opening balance never reaches the snapshot. `Db.Valid()` holds this as
  an invariant (`StoredOpeningsZero`).
- An update may move a contribution to another festival. Only the festival
  it now belongs to is recomputed, so the snapshot of the festival it left
  keeps its old figures until its next mutation.
- `updateExpense` assigns `amount` whenever it is supplied, so an update can
  set it to 0, while `createExpense` refuses a numeric amount of 0 (the
  model's amounts are numbers; see "Left out" for JSON strings).

## Model

| member | source | states |
|---|---|---|
| `Constants.ParseRole` | src/utils/constants.js:3-8 | reading a role string is the exact inverse of its stored name ("admin", "viewer") |
| `Constants.AvailableGlobalRoles` | src/utils/constants.js:3-8 | the roles are exactly admin and viewer, with distinct names |
| `Constants.ParseStatus` | src/utils/constants.js:10-16 | reading a status string is the exact inverse of its stored name |
| `Constants.AvailableContributionStatuses` | src/utils/constants.js:10-16 | the statuses are exactly deposited, pending and cancelled, with three distinct names |
| `Constants.ParseType` | src/utils/constants.js:18-23 | reading a type string is the exact inverse of its stored name |
| `Constants.AvailableContributionTypes` | src/utils/constants.js:18-23 | the types are exactly cash and item |
| `Constants.ParseCategory` | src/utils/constants.js:25-33 | reading a category string is the exact inverse of its stored name |
| `Constants.AvailableExpenseCategories` | src/utils/constants.js:25-33 | the expense categories are exactly Mahaprasad, Decoration, Mandap, Sound and Other |
| `Constants.ParseContributorCategory` | src/utils/constants.js:35-41 | reading a contributor category is the exact inverse of its stored name |
| `Constants.AvailableContributorCategories` | src/utils/constants.js:35-41 | the contributor categories are exactly Parents, Boys and Girls |
| `ContributionModel.NewContribution` | src/models/contribution.model.js:8-44 | a contribution is stored iff both references and a valid type are given and any given status is valid; status defaults to pending, date to the creation time; amount and item fields are optional and copied |
| `ContributionModel.FindContribution` | src/controllers/contribution.controller.js:199 | the lookup by id returns a position holding that id, or none when no stored contribution has it |
| `ExpenseModel.NewExpense` | src/models/expense.model.js:4-13 | an expense is stored iff festival, an enumerated category and an amount are given; it carries exactly one category and a number; description optional, date defaults to the creation time |
| `ExpenseModel.FindExpense` | src/controllers/expense.controller.js:190-193 | the lookup by id returns a position holding that id, or none when no stored expense has it |
| `FestivalModel.NewFestival` | src/models/festival.model.js:3-10 | a festival is accepted iff it has a non-empty name and a year; the opening balance defaults to 0 and no stats exist yet |
| `FestivalModel.OpeningOf` | src/utils/utility.js:44-45 | the opening read is the stored stats' opening balance, and 0 when the festival or its stats are missing |
| `FestivalModel.WriteStats` | src/utils/utility.js:62 | the write replaces only the stats of the given festival, creates no festival for an unknown id, keeps the (name, year) index valid, and keeps every stored opening 0 when it writes opening 0 |
| `FestivalModel.OpeningReadIsZero` | src/utils/utility.js:44-45 | while every stored stats opening is 0, the aggregator reads opening 0 for every festival |
| `FestivalModel.DeclaredOpeningIgnored` | src/models/festival.model.js:7 | the declared top-level opening balance never changes what the aggregator reads; without stats it reads 0 |
| `Database.Db.WriteFestivalStats` | src/utils/utility.js:62 | the write replaces the stats of the given festival as `WriteStats` says, leaves the ledgers and the id counter alone, and keeps the database invariant, including every stored opening being 0 |
| `Database.Db.InsertFestival` | src/models/festival.model.js:12 | a valid insert whose (name, year) is free succeeds and stores the new festival; it fails with a duplicate-key error exactly when (name, year) is taken, and an invalid one fails as invalid, leaving the collection unchanged; the index stays unique |
| `Utility.GroupByCategory` | src/utils/utility.js:34-37 | every row is a category that has expenses of the festival, carrying that category's sum, and every such category has a row |
| `Utility.GroupRowsDistinct` | src/utils/utility.js:34-37 | grouping over a list of distinct categories gives no category two rows |
| `Utility.GroupRowsOnePerCategory` | src/utils/utility.js:34-37 | grouping over the five categories, as the aggregator does, gives exactly one row per category with expenses |
| `Utility.ReduceCategoryTotals` | src/utils/utility.js:48-51 | the reduce yields a key exactly for each row's category, and each key holds the total of the last row with that key |
| `Utility.Snapshot` | src/utils/utility.js:40-60 | the snapshot's opening is the opening read, and current balance = opening + collected − expenses |
| `Utility.UpdateFestivalStats` | src/utils/utility.js:7-65 | returns the snapshot of the current ledgers and stored opening, writes exactly that snapshot onto the festival (nothing for an unknown id) and leaves the ledgers alone; that opening is always 0, so the balance is collected − expenses |
| `Utility.ReduceOfGroupIsCategoryTotals` | src/utils/utility.js:34-51 | reducing the group rows over all categories gives exactly the sparse category map: a key per category with expenses, holding its sum |
| `Utility.AbsentCategoryIsZero` | src/utils/utility.js:34-37 | a category without expenses of the festival sums to 0 |
| `Utility.EmptyMatchIsZero` | src/utils/utility.js:40-42 | with no matching row the collected, pending and expense totals are 0 and the category map is empty, with no zero-valued keys |
| `Utility.AppendContribution` | src/utils/utility.js:9-27 | one more contribution adds its amount (missing = 0) to collected and balance if deposited, to pending only if pending, and nothing if cancelled or of another festival |
| `Utility.AppendExpense` | src/utils/utility.js:29-37 | one more expense of the festival adds its amount to the expense total and its category (creating the key), and takes it off the balance; another festival's expense changes nothing |
| `Utility.CategoryTotalsAppend` | src/utils/utility.js:34-51 | one more expense of the festival adds its amount to its category's key, creating it if missing, and leaves other keys as they were |
| `Utility.LedgerOrderIrrelevant` | src/utils/utility.js:8-38 | the snapshot depends only on the multisets of ledger documents, not their order |
| `Utility.OtherFestivalsIgnored` | src/utils/utility.js:9-37 | adding documents of other festivals to either ledger leaves the snapshot unchanged |
| `Utility.RemoveContribution` | src/controllers/contribution.controller.js:213-219 | after deleting a contribution, re-adding it would restore the snapshot; its amount leaves collected or pending and expenses are untouched |
| `Utility.RemoveExpense` | src/controllers/expense.controller.js:219-228 | after deleting an expense, re-adding it would restore the snapshot; its amount leaves the expense total and its category, the balance rises by it, other categories are unchanged |
| `Utility.ExpenseTotalSplits` | src/utils/utility.js:29-37 | the expense total equals the sum of the five per-category totals |
| `Utility.CategoryTotalsPartition` | src/utils/utility.js:34-51 | category totals have a key exactly for each category with an expense, hold that category's sum, and their values add up to the expense total |
| `Utility.RecomputeIdempotent` | src/utils/utility.js:44-62 | recomputing twice with no mutation gives the same opening, snapshot and stored festivals |
| `Utility.WorkedExample` | src/utils/utility.js:7-65 | with an opening *read* of 1000, deposited cash 500, deposited item without amount and Sound expense 300 give collected 500, pending 0, expenses 300, {Sound: 300}, balance 1200 |
| `Utility.DeclaredOpeningExample` | src/utils/utility.js:44-62 | the same ledgers for a festival declared with opening balance 1000 and no stats: the recompute reads opening 0 and stores balance 200 |
| `Utility.DepositedItemAmountCounts` | src/utils/utility.js:9-17 | a deposited item contribution that carries an amount is counted as collected: the match has no type condition |
| `Listing.SortDirection` | src/controllers/expense.controller.js:52 | the direction is ascending exactly when sortOrder is "asc", descending otherwise and by default |
| `Listing.CeilDiv` | src/controllers/expense.controller.js:130-132 | the page count is the least number of pages of `limit` rows that hold all rows |
| `Listing.Paginate` | src/controllers/expense.controller.js:53-162 | paginates only with both page and limit; rows from (page−1)·limit, at most limit of them, total pages the ceiling, 0 pages for no rows; refused limit or page below 1; otherwise total = limit = row count, page 1, one page |
| `Listing.PageOfRow` | src/controllers/expense.controller.js:56 | row k is item k mod limit of page k div limit + 1, and that page exists |
| `ExpenseController.CreateExpense` | src/controllers/expense.controller.js:12-38 | a falsy festival, category or amount (including 0) fails with 400 and changes nothing; an unknown category is refused as invalid; otherwise the stored expense is appended, one id is consumed, and the returned stats are the aggregate including it, also written on its festival |
| `ExpenseController.UpdateExpense` | src/controllers/expense.controller.js:186-214 | an unknown id gives 404 and changes nothing; a category outside the enumeration is refused as invalid and changes nothing; otherwise the update succeeds, only supplied fields change, never id or festival, and the stats of its festival are recomputed over the updated ledger |
| `ExpenseController.DeleteExpense` | src/controllers/expense.controller.js:216-233 | an unknown id gives 404; an existing one is always deleted: the document is removed, no document with that id remains, and the stats are recomputed for the festival id captured before deletion |
| `ExpenseController.FilterExpenses` | src/controllers/expense.controller.js:67-73 | keeps every matching expense as often as stored and nothing else |
| `ExpenseController.ListExpenses` | src/controllers/expense.controller.js:40-173 | the list is the pagination of exactly the matching expenses: every listed expense is stored and matches, the total is the number of matches, page or limit below 1 is refused, and without pagination every match is listed as often as stored |
| `ExpenseController.CategoryAllIsNoFilter` | src/controllers/expense.controller.js:67-69 | a category filter of "All" or an empty one restricts nothing more than no category |
| `ContributionController.BuildMatchStage` | src/controllers/contribution.controller.js:31-52 | the built stage admits exactly what the query admits: supplied equality filters hold, dates and amounts within independent optional inclusive bounds, and an absent filter imposes nothing |
| `ContributionController.FilterContributions` | src/controllers/contribution.controller.js:31-52 | keeps every contribution satisfying the stage as often as stored and nothing else |
| `ContributionController.ListContributions` | src/controllers/contribution.controller.js:8-166 | the list is the pagination of exactly the admitted contributions: every listed one is stored and admitted, the total is the number of matches, page or limit below 1 is refused, and without pagination every admitted one is listed as often as stored |
| `ContributionController.DefaultStatusCountsAsPending` | src/models/contribution.model.js:25-29 | a contribution created without a status adds its amount to pending and leaves collected and balance unchanged |
| `ContributionController.CreateContribution` | src/controllers/contribution.controller.js:181-193 | the stored document is exactly what the schema builds, one id is consumed, and the stats of its festival are recomputed over the ledger including it |
| `ContributionController.ApplyPatch` | src/controllers/contribution.controller.js:199 | every supplied field takes the supplied value, every other field and the id are kept; an empty update changes nothing |
| `ContributionController.PatchIdempotent` | src/controllers/contribution.controller.js:199 | applying the same update twice gives the same document as once |
| `ContributionController.UpdateContribution` | src/controllers/contribution.controller.js:195-208 | an unknown id gives 404 and no recompute; an existing one is always updated: the patched document replaces the stored one and its (new) festival's stats are recomputed |
| `ContributionController.DeleteContribution` | src/controllers/contribution.controller.js:210-222 | an unknown id gives 404 and no recompute; an existing one is always deleted: the document is removed, no document with that id remains, its festival's stats are recomputed without it, and the answer carries no data |

## Left out

- PDF and report generation (`expensesPdfByFestival`, the report controller, HTML templating, number formatting): file, browser and template I/O.
- `getExpenseById`, `getContributionById` and `generateContributionSlip`: lookups whose only logic is the `populate` join.
- Free-text search (`$regex`) and the case-insensitive collation of the list queries: they depend on the database's regex and locale rules. The model compares strings exactly.
- The `dateRange` filter of the expense list: it depends on the wall clock, the local time zone and `Date` arithmetic.
- The `$lookup`, `$unwind` and `$project` stages: joins and output shaping. The model lists the ledger documents themselves.
- ListExpenses: rows are listed in ledger order; sorting by an arbitrary `sortField` is not modelled, only its direction (`SortDirection`).
- ListContributions: rows are listed in ledger order; sorting by `sortField` is not modelled, only its direction.
- Authentication, startup, database connection, routes, and the festival, contributor, user and auth controllers, which return constant responses. The festival opening-balance update therefore has no model.
- Concurrency: the four aggregations run together in the source, and concurrent mutations can race. The model runs them as one sequential read.
- Amounts are integers. JavaScript floating point, `parseInt`/`parseFloat` and their NaN results are not modelled.
- Ids are natural numbers handed out by the database. Malformed id strings and their cast errors are not modelled, and neither is date parsing.
- The festival schema declares no `stats` path. The model stores the snapshot written by the aggregator; whether the database would drop that write under a strict schema is not modelled.
- UpdateContribution: the source runs the update without schema validators, so a status or type outside the enumerations, or a null, would be stored; the model's typed patch can only carry enumerated values.
- CreateContribution: the `!newContribution` branch is not modelled, because a create either returns the document or fails.
- JSON type casting is not modelled: amounts arrive as numbers. The falsy guard of `createExpense` sees a string `"0"` as present, and the schema would then cast it to 0, so such a create stores an amount of 0.
- The HTTP status given to a schema validation error is decided by error middleware that is not part of this model. The model reports `Invalid`.
- `createdAt`/`updatedAt` timestamps are not modelled.
