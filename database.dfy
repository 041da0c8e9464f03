/** The in-memory database behind the handlers: the contribution and expense
    ledgers, the festival collection keyed by id, and the source of fresh ids. */
module Database {
  import opened Common
  import opened ContributionModel
  import opened ExpenseModel
  import opened FestivalModel

  class Db {
    var contributions: seq<Contribution>
    var expenses: seq<Expense>
    var festivals: map<ObjectId, Festival>
    var nextId: ObjectId

    /** Every id is below `nextId`, ids are unique within each collection, a
        festival is stored under its own id, the (name, year) index holds, and
        no stored stats snapshot has an opening balance other than 0. */
    ghost predicate Valid()
      reads this
    {
      && UniqueNameYear(festivals)
      && StoredOpeningsZero(festivals)
      && (forall k :: k in festivals ==> festivals[k].id == k && k < nextId)
      && (forall i :: 0 <= i < |contributions| ==> contributions[i].id < nextId)
      && (forall i :: 0 <= i < |expenses| ==> expenses[i].id < nextId)
      && ContributionIdsDistinct(contributions)
      && ExpenseIdsDistinct(expenses)
    }

    constructor ()
      ensures Valid()
      ensures contributions == [] && expenses == [] && festivals == map[] && nextId == 0
    {
      contributions, expenses, festivals, nextId := [], [], map[], 0;
    }

    /** `Festival.findByIdAndUpdate(fid, { stats: s })` on the collection: the
        stats of festival `fid` are replaced (an unknown id changes nothing)
        and the ledgers are untouched. A snapshot with opening 0 keeps every
        stored opening 0. */
    method WriteFestivalStats(fid: ObjectId, s: Stats)
      requires Valid() && s.openingBalance == 0
      modifies this
      ensures Valid()
      ensures festivals == WriteStats(old(festivals), fid, s)
      ensures contributions == old(contributions) && expenses == old(expenses) && nextId == old(nextId)
    {
      festivals := WriteStats(festivals, fid, s);
    }

    /** `Festival.create`: the schema checks the document, then the unique
        index refuses a second festival with the same (name, year); a refused
        insert leaves the collection unchanged. */
    method InsertFestival(input: FestivalInput) returns (r: Result<Festival, ApiError>)
      requires Valid()
      modifies this
      ensures Valid()
      ensures contributions == old(contributions) && expenses == old(expenses)
      ensures !FestivalAccepted(input) ==> r == Err(Invalid)
      ensures FestivalAccepted(input) ==>
        ((exists k :: k in old(festivals) && old(festivals)[k].name == input.name.value && old(festivals)[k].year == input.year.value)
         <==> r == Err(DuplicateKey))
      ensures FestivalAccepted(input)
              && !(exists k :: k in old(festivals) && old(festivals)[k].name == input.name.value && old(festivals)[k].year == input.year.value)
              ==> r.Ok?
      ensures r.Err? ==> festivals == old(festivals) && nextId == old(nextId)
      ensures r.Ok? ==>
        && r == NewFestival(input, old(nextId))
        && festivals == old(festivals)[r.value.id := r.value]
        && nextId == old(nextId) + 1
    {
      var created := NewFestival(input, nextId);
      if created.Err? {
        return Err(created.error);
      }
      var f := created.value;
      if exists k :: k in festivals && SameKey(festivals[k], f) {
        return Err(DuplicateKey);
      }
      festivals := festivals[f.id := f];
      nextId := nextId + 1;
      r := Ok(f);
    }
  }
}
