/** The festival statistics aggregator (`updateFestivalStats`): it rebuilds a
    festival's snapshot from the contribution and expense ledgers and writes
    it onto the festival document.

    Each of the four database aggregations matches the festival's documents
    and adds up `amount`. Here a document that does not match weighs 0, so an
    aggregation is a `Sum` over the whole ledger. When nothing matches, the
    database returns no group and `?.total || 0` gives 0, which is the empty
    sum. */
module Utility {
  import opened Common
  import opened Constants
  import opened Sums
  import opened ContributionModel
  import opened ExpenseModel
  import opened FestivalModel
  import opened Database

  /** `$sum` skips a missing `amount`, so such a contribution adds 0. */
  function AmountOf(c: Contribution): int {
    c.amount.GetOr(0)
  }

  /** Weight of a contribution in the aggregation matching `{ festivalId, status }`.
      The match has no condition on the contribution type. */
  function StatusWeight(fid: ObjectId, st: ContributionStatus): Contribution -> int {
    (c: Contribution) => if c.festivalId == fid && c.status == st then AmountOf(c) else 0
  }

  /** Weight of an expense in the aggregation matching `{ festivalId }`. */
  function ExpenseWeight(fid: ObjectId): Expense -> int {
    (e: Expense) => if e.festivalId == fid then e.amount else 0
  }

  /** Weight of an expense in the group of category `cat`. */
  function CategoryWeight(fid: ObjectId, cat: ExpenseCategory): Expense -> int {
    (e: Expense) => if e.festivalId == fid && e.category == cat then e.amount else 0
  }

  /** The summed amount of the festival's contributions with status `st`. */
  function StatusTotal(cs: seq<Contribution>, fid: ObjectId, st: ContributionStatus): int {
    Sum(cs, StatusWeight(fid, st))
  }

  /** The summed amount of the festival's expenses. */
  function ExpenseTotal(es: seq<Expense>, fid: ObjectId): int {
    Sum(es, ExpenseWeight(fid))
  }

  /** The summed amount of the festival's expenses in category `cat`. */
  function CategoryTotal(es: seq<Expense>, fid: ObjectId, cat: ExpenseCategory): int {
    Sum(es, CategoryWeight(fid, cat))
  }

  /** The categories in which the festival has at least one expense. */
  function PresentCategories(es: seq<Expense>, fid: ObjectId): set<ExpenseCategory> {
    set e | e in es && e.festivalId == fid :: e.category
  }

  /** The sparse per-category totals: one key per category that has expenses. */
  function CategoryTotals(es: seq<Expense>, fid: ObjectId): map<ExpenseCategory, int> {
    map cat | cat in PresentCategories(es, fid) :: CategoryTotal(es, fid, cat)
  }

  /** A value of a category-totals map, reading a missing key as 0. */
  function TotalFor(m: map<ExpenseCategory, int>, cat: ExpenseCategory): int {
    if cat in m then m[cat] else 0
  }

  /** The sum of the values of a category-totals map (its keys are drawn from
      the five categories). */
  function ValuesTotal(m: map<ExpenseCategory, int>): int {
    TotalFor(m, Mahaprasad) + TotalFor(m, Decoration) + TotalFor(m, Mandap)
      + TotalFor(m, Sound) + TotalFor(m, Other)
  }

  /** One row of the `$group: { _id: "$category" }` result. */
  datatype CategoryGroup = CategoryGroup(category: ExpenseCategory, total: int)

  /** The categories of `cats` that are in `present`, in the order of `cats`. */
  function FilterIn(cats: seq<ExpenseCategory>, present: set<ExpenseCategory>): (r: seq<ExpenseCategory>)
    ensures forall c :: c in r <==> c in cats && c in present
  {
    if cats == [] then []
    else (if cats[0] in present then [cats[0]] else []) + FilterIn(cats[1..], present)
  }

  /** No category occurs twice in `cats`. */
  predicate Distinct(cats: seq<ExpenseCategory>) {
    forall i, j :: 0 <= i < j < |cats| ==> cats[i] != cats[j]
  }

  /** Filtering a list without repetitions leaves a list without repetitions. */
  lemma {:induction false} FilterInDistinct(cats: seq<ExpenseCategory>, present: set<ExpenseCategory>)
    requires Distinct(cats)
    ensures Distinct(FilterIn(cats, present))
  {
    if cats != [] {
      FilterInDistinct(cats[1..], present);
      var head, tail := (if cats[0] in present then [cats[0]] else []), FilterIn(cats[1..], present);
      var r := FilterIn(cats, present);
      assert r == head + tail;
      assert cats[0] !in cats[1..];
      forall i, j | 0 <= i < j < |r| ensures r[i] != r[j] {
        assert r[j] == tail[j - |head|] && r[j] in tail;
        if i >= |head| {
          assert r[i] == tail[i - |head|];
        }
      }
    }
  }

  /** The rows the group-by-category aggregation returns, one for each
      category of `cats` that has expenses, carrying that category's sum. */
  function GroupByCategory(es: seq<Expense>, fid: ObjectId, cats: seq<ExpenseCategory>): (r: seq<CategoryGroup>)
    ensures forall g :: g in r ==>
      g.category in cats && g.category in PresentCategories(es, fid) && g.total == CategoryTotal(es, fid, g.category)
    ensures forall cat :: cat in cats && cat in PresentCategories(es, fid) ==>
      exists g :: g in r && g.category == cat
  {
    var keys := FilterIn(cats, PresentCategories(es, fid));
    var r := seq(|keys|, i requires 0 <= i < |keys| => CategoryGroup(keys[i], CategoryTotal(es, fid, keys[i])));
    assert forall cat :: cat in keys ==> exists i :: 0 <= i < |keys| && keys[i] == cat && r[i] in r;
    r
  }

  /** No two group rows share a category. */
  predicate OnePerCategory(r: seq<CategoryGroup>) {
    forall i, j :: 0 <= i < j < |r| ==> r[i].category != r[j].category
  }

  /** Over a list of distinct categories the group rows are one per
      category: no category has two rows. */
  lemma GroupRowsDistinct(es: seq<Expense>, fid: ObjectId, cats: seq<ExpenseCategory>)
    requires Distinct(cats)
    ensures OnePerCategory(GroupByCategory(es, fid, cats))
  {
    FilterInDistinct(cats, PresentCategories(es, fid));
  }

  /** The aggregator groups over the five categories, so it gets one row per
      category that has expenses. */
  lemma GroupRowsOnePerCategory(es: seq<Expense>, fid: ObjectId)
    ensures OnePerCategory(GroupByCategory(es, fid, AvailableExpenseCategories()))
  {
    var cats := AvailableExpenseCategories();
    forall i, j | 0 <= i < j < |cats| ensures cats[i] != cats[j] {
      assert CategoryName(cats[i]) != CategoryName(cats[j]);
    }
    GroupRowsDistinct(es, fid, cats);
  }

  /** The `reduce` that turns the group rows into an object: each row sets
      `acc[row._id] = row.total`, so a later row with the same key wins. */
  method ReduceCategoryTotals(groups: seq<CategoryGroup>) returns (acc: map<ExpenseCategory, int>)
    ensures forall k :: k in acc <==> exists i :: 0 <= i < |groups| && groups[i].category == k
    ensures forall k :: k in acc ==> exists i :: 0 <= i < |groups| && groups[i].category == k && acc[k] == groups[i].total
    ensures forall i :: (0 <= i < |groups| && (forall j :: i < j < |groups| ==> groups[j].category != groups[i].category))
                        ==> acc[groups[i].category] == groups[i].total
  {
    acc := map[];
    var n := 0;
    while n < |groups|
      invariant 0 <= n <= |groups|
      invariant forall k :: k in acc <==> exists i :: 0 <= i < n && groups[i].category == k
      invariant forall k :: k in acc ==> exists i :: 0 <= i < n && groups[i].category == k && acc[k] == groups[i].total
      invariant forall i :: (0 <= i < n && (forall j :: i < j < n ==> groups[j].category != groups[i].category))
                          ==> acc[groups[i].category] == groups[i].total
    {
      acc := acc[groups[n].category := groups[n].total];
      n := n + 1;
    }
  }

  /** The snapshot of festival `fid` over the given ledgers with opening
      balance `opening`: the balance is opening plus collected minus expenses,
      and the pending amount never enters it. */
  function Snapshot(opening: int, cs: seq<Contribution>, es: seq<Expense>, fid: ObjectId): (r: Stats)
    ensures r.openingBalance == opening
    ensures r.currentBalance == r.openingBalance + r.totalCollected - r.totalExpenses
  {
    var collected := StatusTotal(cs, fid, Deposited);
    var expenses := ExpenseTotal(es, fid);
    Stats(opening, collected, StatusTotal(cs, fid, Pending), expenses,
          opening + collected - expenses, CategoryTotals(es, fid))
  }

  /** The festival collection after `updateFestivalStats(fid)` ran over the given ledgers. */
  function Recomputed(fs: map<ObjectId, Festival>, cs: seq<Contribution>, es: seq<Expense>, fid: ObjectId): map<ObjectId, Festival>
  {
    WriteStats(fs, fid, Snapshot(OpeningOf(fs, fid), cs, es, fid))
  }

  /** `updateFestivalStats(festivalId)`: computes the snapshot from the current
      ledgers and the stored opening balance, writes it onto the festival (an
      unknown id writes nothing) and returns exactly what it wrote. */
  method UpdateFestivalStats(db: Db, fid: ObjectId) returns (s: Stats)
    requires db.Valid()
    modifies db
    ensures db.Valid()
    ensures s == Snapshot(OpeningOf(old(db.festivals), fid), db.contributions, db.expenses, fid)
    ensures db.festivals == WriteStats(old(db.festivals), fid, s)
    ensures s.openingBalance == 0 && s.currentBalance == s.totalCollected - s.totalExpenses
    ensures db.contributions == old(db.contributions) && db.expenses == old(db.expenses)
    ensures db.nextId == old(db.nextId)
  {
    var totalCollected := StatusTotal(db.contributions, fid, Deposited);
    var pendingAmount := StatusTotal(db.contributions, fid, Pending);
    var totalExpenses := ExpenseTotal(db.expenses, fid);
    var groups := GroupByCategory(db.expenses, fid, AvailableExpenseCategories());

    var opening := OpeningOf(db.festivals, fid);
    OpeningReadIsZero(db.festivals, fid);
    var currentBalance := opening + totalCollected - totalExpenses;

    var categoryTotals := ReduceCategoryTotals(groups);
    ReduceOfGroupIsCategoryTotals(db.expenses, fid, AvailableExpenseCategories(), groups, categoryTotals);

    s := Stats(opening, totalCollected, pendingAmount, totalExpenses, currentBalance, categoryTotals);
    db.WriteFestivalStats(fid, s);
  }

  /** Reducing the group-by-category rows over every category, in the way
      `ReduceCategoryTotals` promises to, yields exactly the sparse category
      map of the snapshot. */
  lemma ReduceOfGroupIsCategoryTotals(es: seq<Expense>, fid: ObjectId, cats: seq<ExpenseCategory>,
                                      groups: seq<CategoryGroup>, acc: map<ExpenseCategory, int>)
    requires forall cat :: cat in cats
    requires groups == GroupByCategory(es, fid, cats)
    requires forall k :: k in acc <==> exists i :: 0 <= i < |groups| && groups[i].category == k
    requires forall k :: k in acc ==> exists i :: 0 <= i < |groups| && groups[i].category == k && acc[k] == groups[i].total
    ensures acc == CategoryTotals(es, fid)
  {
    var expected := CategoryTotals(es, fid);
    forall k ensures k in acc <==> k in expected {
      if k in expected {
        var g :| g in groups && g.category == k;
      }
    }
    forall k | k in acc ensures acc[k] == expected[k] {
      var i :| 0 <= i < |groups| && groups[i].category == k && acc[k] == groups[i].total;
      assert groups[i] in groups;
    }
  }

  // ----- Laws of the snapshot -----

  /** A category without expenses has total 0. */
  lemma AbsentCategoryIsZero(es: seq<Expense>, fid: ObjectId, cat: ExpenseCategory)
    requires cat !in PresentCategories(es, fid)
    ensures CategoryTotal(es, fid, cat) == 0
  {
    forall e | e in es ensures CategoryWeight(fid, cat)(e) == 0 {
      if e.festivalId == fid {
        assert e.category in PresentCategories(es, fid);
      }
    }
    SumZero(es, CategoryWeight(fid, cat));
  }

  /** When no row matches, the figures are 0: no deposited contribution gives
      nothing collected, no pending one nothing pending, and a festival
      without expenses has no expense total and an empty category map (no key
      with a zero value). */
  lemma EmptyMatchIsZero(opening: int, cs: seq<Contribution>, es: seq<Expense>, fid: ObjectId)
    ensures (forall c :: c in cs ==> c.festivalId != fid || c.status != Deposited) ==>
      Snapshot(opening, cs, es, fid).totalCollected == 0
    ensures (forall c :: c in cs ==> c.festivalId != fid || c.status != Pending) ==>
      Snapshot(opening, cs, es, fid).pendingAmount == 0
    ensures (forall e :: e in es ==> e.festivalId != fid) ==>
      && Snapshot(opening, cs, es, fid).totalExpenses == 0
      && Snapshot(opening, cs, es, fid).categoryTotals == map[]
      && Snapshot(opening, cs, es, fid).currentBalance == opening + Snapshot(opening, cs, es, fid).totalCollected
  {
    if forall c :: c in cs ==> c.festivalId != fid || c.status != Deposited {
      SumZero(cs, StatusWeight(fid, Deposited));
    }
    if forall c :: c in cs ==> c.festivalId != fid || c.status != Pending {
      SumZero(cs, StatusWeight(fid, Pending));
    }
    if forall e :: e in es ==> e.festivalId != fid {
      SumZero(es, ExpenseWeight(fid));
      assert PresentCategories(es, fid) == {};
    }
  }

  /** Recording one more contribution: a deposited one of this festival adds
      its amount to the collected total and the balance, a pending one adds it
      to the pending amount only, and a cancelled one or one of another
      festival changes nothing. */
  lemma AppendContribution(opening: int, cs: seq<Contribution>, es: seq<Expense>, c: Contribution, fid: ObjectId)
    ensures var before, after := Snapshot(opening, cs, es, fid), Snapshot(opening, cs + [c], es, fid);
      && after.totalCollected == before.totalCollected + (if c.festivalId == fid && c.status == Deposited then AmountOf(c) else 0)
      && after.pendingAmount == before.pendingAmount + (if c.festivalId == fid && c.status == Pending then AmountOf(c) else 0)
      && after.currentBalance == before.currentBalance + (if c.festivalId == fid && c.status == Deposited then AmountOf(c) else 0)
      && after.totalExpenses == before.totalExpenses
      && after.categoryTotals == before.categoryTotals
      && after.openingBalance == before.openingBalance
  {
    SumAppend(cs, c, StatusWeight(fid, Deposited));
    SumAppend(cs, c, StatusWeight(fid, Pending));
  }

  /** Recording one more expense of this festival adds its amount to the
      expense total and to its category (creating the key when the category
      had none), and takes it off the balance; an expense of another festival
      changes nothing. */
  lemma AppendExpense(opening: int, cs: seq<Contribution>, es: seq<Expense>, e: Expense, fid: ObjectId)
    ensures var before, after := Snapshot(opening, cs, es, fid), Snapshot(opening, cs, es + [e], fid);
      && after.totalExpenses == before.totalExpenses + (if e.festivalId == fid then e.amount else 0)
      && after.currentBalance == before.currentBalance - (if e.festivalId == fid then e.amount else 0)
      && after.categoryTotals == (if e.festivalId == fid
                                  then before.categoryTotals[e.category := TotalFor(before.categoryTotals, e.category) + e.amount]
                                  else before.categoryTotals)
      && after.totalCollected == before.totalCollected
      && after.pendingAmount == before.pendingAmount
  {
    SumAppend(es, e, ExpenseWeight(fid));
    CategoryTotalsAppend(es, e, fid);
  }

  /** The category map after recording one more expense of this festival:
      its category's total grows by the amount, the key appears if it was
      missing, and every other key keeps its value. */
  lemma CategoryTotalsAppend(es: seq<Expense>, e: Expense, fid: ObjectId)
    ensures var before, after := CategoryTotals(es, fid), CategoryTotals(es + [e], fid);
      after == (if e.festivalId == fid then before[e.category := TotalFor(before, e.category) + e.amount] else before)
  {
    var es' := es + [e];
    var before, after := CategoryTotals(es, fid), CategoryTotals(es', fid);
    var expected := if e.festivalId == fid then before[e.category := TotalFor(before, e.category) + e.amount] else before;
    assert PresentCategories(es', fid) == PresentCategories(es, fid) + (if e.festivalId == fid then {e.category} else {});
    forall cat | cat in after ensures after[cat] == expected[cat] {
      SumAppend(es, e, CategoryWeight(fid, cat));
      if cat !in before {
        AbsentCategoryIsZero(es, fid, cat);
      }
    }
    assert after == expected;
  }

  /** The snapshot does not depend on the order of the ledgers. */
  lemma LedgerOrderIrrelevant(opening: int, cs: seq<Contribution>, cs': seq<Contribution>,
                              es: seq<Expense>, es': seq<Expense>, fid: ObjectId)
    requires multiset(cs) == multiset(cs') && multiset(es) == multiset(es')
    ensures Snapshot(opening, cs, es, fid) == Snapshot(opening, cs', es', fid)
  {
    SumPermutation(cs, cs', StatusWeight(fid, Deposited));
    SumPermutation(cs, cs', StatusWeight(fid, Pending));
    SumPermutation(es, es', ExpenseWeight(fid));
    assert forall e :: e in es <==> e in multiset(es);
    assert forall e :: e in es' <==> e in multiset(es');
    assert PresentCategories(es, fid) == PresentCategories(es', fid);
    forall cat ensures CategoryTotal(es, fid, cat) == CategoryTotal(es', fid, cat) {
      SumPermutation(es, es', CategoryWeight(fid, cat));
    }
    assert CategoryTotals(es, fid) == CategoryTotals(es', fid);
  }

  /** Documents of other festivals do not affect the snapshot. */
  lemma OtherFestivalsIgnored(opening: int, cs: seq<Contribution>, es: seq<Expense>,
                              others: seq<Contribution>, otherExpenses: seq<Expense>, fid: ObjectId)
    requires forall c :: c in others ==> c.festivalId != fid
    requires forall e :: e in otherExpenses ==> e.festivalId != fid
    ensures Snapshot(opening, cs + others, es + otherExpenses, fid) == Snapshot(opening, cs, es, fid)
  {
    SumConcat(cs, others, StatusWeight(fid, Deposited));
    SumZero(others, StatusWeight(fid, Deposited));
    SumConcat(cs, others, StatusWeight(fid, Pending));
    SumZero(others, StatusWeight(fid, Pending));
    SumConcat(es, otherExpenses, ExpenseWeight(fid));
    SumZero(otherExpenses, ExpenseWeight(fid));
    assert PresentCategories(es + otherExpenses, fid) == PresentCategories(es, fid);
    forall cat ensures CategoryTotal(es + otherExpenses, fid, cat) == CategoryTotal(es, fid, cat) {
      SumConcat(es, otherExpenses, CategoryWeight(fid, cat));
      SumZero(otherExpenses, CategoryWeight(fid, cat));
    }
    assert CategoryTotals(es + otherExpenses, fid) == CategoryTotals(es, fid);
  }

  /** Deleting the contribution at `i`: re-recording it would restore the
      snapshot, so the deleted document no longer counts in any total. */
  lemma RemoveContribution(opening: int, cs: seq<Contribution>, es: seq<Expense>, i: nat, fid: ObjectId)
    requires i < |cs|
    ensures var c, before, after := cs[i], Snapshot(opening, cs, es, fid), Snapshot(opening, RemoveAt(cs, i), es, fid);
      && before == Snapshot(opening, RemoveAt(cs, i) + [c], es, fid)
      && after.totalCollected == before.totalCollected - (if c.festivalId == fid && c.status == Deposited then AmountOf(c) else 0)
      && after.pendingAmount == before.pendingAmount - (if c.festivalId == fid && c.status == Pending then AmountOf(c) else 0)
      && after.totalExpenses == before.totalExpenses
      && after.categoryTotals == before.categoryTotals
  {
    assert multiset(cs) == multiset(RemoveAt(cs, i) + [cs[i]]);
    LedgerOrderIrrelevant(opening, cs, RemoveAt(cs, i) + [cs[i]], es, es, fid);
    AppendContribution(opening, RemoveAt(cs, i), es, cs[i], fid);
  }

  /** Deleting the expense at `i`: re-recording it would restore the
      snapshot, so its amount leaves the expense total and its category. */
  lemma RemoveExpense(opening: int, cs: seq<Contribution>, es: seq<Expense>, i: nat, fid: ObjectId)
    requires i < |es|
    ensures var e, before, after := es[i], Snapshot(opening, cs, es, fid), Snapshot(opening, cs, RemoveAt(es, i), fid);
      && before == Snapshot(opening, cs, RemoveAt(es, i) + [e], fid)
      && after.totalExpenses == before.totalExpenses - (if e.festivalId == fid then e.amount else 0)
      && after.currentBalance == before.currentBalance + (if e.festivalId == fid then e.amount else 0)
      && (forall cat :: cat != e.category ==> TotalFor(after.categoryTotals, cat) == TotalFor(before.categoryTotals, cat))
      && TotalFor(after.categoryTotals, e.category)
         == TotalFor(before.categoryTotals, e.category) - (if e.festivalId == fid then e.amount else 0)
      && after.totalCollected == before.totalCollected
      && after.pendingAmount == before.pendingAmount
  {
    assert multiset(es) == multiset(RemoveAt(es, i) + [es[i]]);
    LedgerOrderIrrelevant(opening, cs, cs, es, RemoveAt(es, i) + [es[i]], fid);
    AppendExpense(opening, cs, RemoveAt(es, i), es[i], fid);
  }

  /** The expense total splits over the five categories. */
  lemma {:induction false} ExpenseTotalSplits(es: seq<Expense>, fid: ObjectId)
    ensures ExpenseTotal(es, fid)
      == CategoryTotal(es, fid, Mahaprasad) + CategoryTotal(es, fid, Decoration) + CategoryTotal(es, fid, Mandap)
       + CategoryTotal(es, fid, Sound) + CategoryTotal(es, fid, Other)
  {
    if es != [] {
      ExpenseTotalSplits(es[1..], fid);
    }
  }

  /** `categoryTotals` is sparse and partitions the expense total: it has a
      key exactly for each category with at least one expense of the
      festival, that key holds the category's sum, and its values add up to
      `totalExpenses`. */
  lemma CategoryTotalsPartition(opening: int, cs: seq<Contribution>, es: seq<Expense>, fid: ObjectId)
    ensures var s := Snapshot(opening, cs, es, fid);
      && (forall cat :: cat in s.categoryTotals <==> exists e :: e in es && e.festivalId == fid && e.category == cat)
      && (forall cat :: TotalFor(s.categoryTotals, cat) == CategoryTotal(es, fid, cat))
      && ValuesTotal(s.categoryTotals) == s.totalExpenses
  {
    var m := CategoryTotals(es, fid);
    forall cat ensures TotalFor(m, cat) == CategoryTotal(es, fid, cat) {
      if cat !in m {
        AbsentCategoryIsZero(es, fid, cat);
      }
    }
    ExpenseTotalSplits(es, fid);
  }

  /** Recomputing twice with no mutation in between gives the same snapshot
      and the same stored festivals: the second run reads back the opening
      balance the first one wrote. */
  lemma RecomputeIdempotent(fs: map<ObjectId, Festival>, cs: seq<Contribution>, es: seq<Expense>, fid: ObjectId)
    ensures OpeningOf(Recomputed(fs, cs, es, fid), fid) == OpeningOf(fs, fid)
    ensures Recomputed(Recomputed(fs, cs, es, fid), cs, es, fid) == Recomputed(fs, cs, es, fid)
  {
    var s := Snapshot(OpeningOf(fs, fid), cs, es, fid);
    var once := WriteStats(fs, fid, s);
    if fid in fs {
      assert once[fid].stats == Some(s);
    }
    assert OpeningOf(once, fid) == OpeningOf(fs, fid);
  }

  /** A worked example: opening balance 1000, a deposited cash gift of 500, a
      deposited item without an amount, and a Sound expense of 300. */
  lemma WorkedExample()
    ensures var f := 7;
      var cs := [Contribution(1, 20, f, Cash, Deposited, 0, Some(500), None, None, None),
                 Contribution(2, 21, f, Item, Deposited, 0, None, Some("Lamps"), Some(10), Some(2000))];
      var es := [Expense(3, f, Sound, 300, None, 0)];
      Snapshot(1000, cs, es, f) == Stats(1000, 500, 0, 300, 1200, map[Sound := 300])
  {
    var f := 7;
    var c1 := Contribution(1, 20, f, Cash, Deposited, 0, Some(500), None, None, None);
    var c2 := Contribution(2, 21, f, Item, Deposited, 0, None, Some("Lamps"), Some(10), Some(2000));
    var e := Expense(3, f, Sound, 300, None, 0);
    AppendContribution(1000, [c1], [e], c2, f);
    assert [c1] + [c2] == [c1, c2];
    AppendContribution(1000, [], [e], c1, f);
    AppendExpense(1000, [], [], e, f);
    EmptyMatchIsZero(1000, [], [], f);
    assert [] + [c1] == [c1];
    assert [] + [e] == [e];
  }

  /** The same ledgers end to end: a festival declared with opening balance
      1000 but no stats yet is recomputed with opening read 0, so its stored
      balance is 200, not 1200. */
  lemma DeclaredOpeningExample()
    ensures var f := 7;
      var fs := map[f := Festival(f, "Ganesh Utsav", 2025, 1000, None)];
      var cs := [Contribution(1, 20, f, Cash, Deposited, 0, Some(500), None, None, None),
                 Contribution(2, 21, f, Item, Deposited, 0, None, Some("Lamps"), Some(10), Some(2000))];
      var es := [Expense(3, f, Sound, 300, None, 0)];
      Recomputed(fs, cs, es, f)[f].stats == Some(Stats(0, 500, 0, 300, 200, map[Sound := 300]))
  {
    var f := 7;
    var fs := map[f := Festival(f, "Ganesh Utsav", 2025, 1000, None)];
    var cs := [Contribution(1, 20, f, Cash, Deposited, 0, Some(500), None, None, None),
               Contribution(2, 21, f, Item, Deposited, 0, None, Some("Lamps"), Some(10), Some(2000))];
    var es := [Expense(3, f, Sound, 300, None, 0)];
    WorkedExample();
    var read, declared := Snapshot(0, cs, es, f), Snapshot(1000, cs, es, f);
    assert read == declared.(openingBalance := 0, currentBalance := declared.currentBalance - 1000);
    assert OpeningOf(fs, f) == 0;
  }

  /** The aggregation has no type condition: a deposited item contribution
      that carries an amount is counted as collected. */
  lemma DepositedItemAmountCounts(opening: int, c: Contribution, fid: ObjectId)
    requires c.festivalId == fid && c.kind == Item && c.status == Deposited && c.amount.Some?
    ensures Snapshot(opening, [c], [], fid).totalCollected == c.amount.value
  {
    AppendContribution(opening, [], [], c, fid);
    EmptyMatchIsZero(opening, [], [], fid);
    assert [] + [c] == [c];
  }
}
