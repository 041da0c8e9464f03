/** The Festival document, the stats snapshot the aggregator writes onto it,
    and the unique (name, year) index. */
module FestivalModel {
  import opened Common
  import opened Constants

  /** The snapshot `updateFestivalStats` computes; `categoryTotals` has a key
      only for the categories that have expenses. */
  datatype Stats = Stats(
    openingBalance: int,
    totalCollected: int,
    pendingAmount: int,
    totalExpenses: int,
    currentBalance: int,
    categoryTotals: map<ExpenseCategory, int>)

  /** The schema declares name, year and a top-level opening balance; the
      `stats` sub-document exists only once the aggregator has written it. */
  datatype Festival = Festival(
    id: ObjectId,
    name: string,
    year: int,
    openingBalance: int,
    stats: Option<Stats>)

  datatype FestivalInput = FestivalInput(
    name: Option<string>,
    year: Option<int>,
    openingBalance: Option<int>)

  /** The schema demands a non-empty name and a year. */
  predicate FestivalAccepted(input: FestivalInput) {
    Truthy(input.name) && input.year.Some?
  }

  /** The document the schema builds for `input`: the opening balance defaults
      to 0 and no stats are stored yet. */
  function NewFestival(input: FestivalInput, id: ObjectId): (r: Result<Festival, ApiError>)
    ensures r.Ok? <==> FestivalAccepted(input)
    ensures r.Err? ==> r.error == Invalid
    ensures r.Ok? ==>
      && r.value.id == id
      && Some(r.value.name) == input.name
      && Some(r.value.year) == input.year
      && r.value.openingBalance == input.openingBalance.GetOr(0)
      && r.value.stats.None?
  {
    if !FestivalAccepted(input) then Err(Invalid)
    else Ok(Festival(id, input.name.value, input.year.value, input.openingBalance.GetOr(0), None))
  }

  /** Two festivals collide on the unique index when name and year agree. */
  predicate SameKey(a: Festival, b: Festival) {
    a.name == b.name && a.year == b.year
  }

  /** The unique index holds: no two stored festivals share (name, year). */
  predicate UniqueNameYear(fs: map<ObjectId, Festival>) {
    forall a, b :: a in fs && b in fs && a != b ==> !SameKey(fs[a], fs[b])
  }

  /** The opening balance the aggregator reads, `festival?.stats?.openingBalance || 0`:
      the value in the stored stats, and 0 when the festival or its stats are
      missing. The top-level `openingBalance` field is never consulted. */
  function OpeningOf(fs: map<ObjectId, Festival>, fid: ObjectId): (r: int)
    ensures fid !in fs || fs[fid].stats.None? ==> r == 0
    ensures fid in fs && fs[fid].stats.Some? ==> r == fs[fid].stats.value.openingBalance
  {
    if fid in fs && fs[fid].stats.Some? then fs[fid].stats.value.openingBalance else 0
  }

  /** Every stored stats snapshot carries opening balance 0. Festivals are
      created without stats and the only writer copies the opening it read,
      so this holds in every reachable state. */
  predicate StoredOpeningsZero(fs: map<ObjectId, Festival>) {
    forall k :: k in fs && fs[k].stats.Some? ==> fs[k].stats.value.openingBalance == 0
  }

  /** Where every stored opening is 0, the aggregator reads 0 for every
      festival, whatever its declared `openingBalance`. */
  lemma OpeningReadIsZero(fs: map<ObjectId, Festival>, fid: ObjectId)
    requires StoredOpeningsZero(fs)
    ensures OpeningOf(fs, fid) == 0
  {
  }

  /** `Festival.findByIdAndUpdate(fid, { stats: s })`: replaces the stats of an
      existing festival and leaves every other field and festival alone; an
      unknown id changes nothing and creates no festival. */
  function WriteStats(fs: map<ObjectId, Festival>, fid: ObjectId, s: Stats): (r: map<ObjectId, Festival>)
    ensures r.Keys == fs.Keys
    ensures forall k :: k in fs && k != fid ==> r[k] == fs[k]
    ensures fid in fs ==> r[fid] == fs[fid].(stats := Some(s))
    ensures UniqueNameYear(fs) ==> UniqueNameYear(r)
    ensures StoredOpeningsZero(fs) && s.openingBalance == 0 ==> StoredOpeningsZero(r)
  {
    if fid in fs then fs[fid := fs[fid].(stats := Some(s))] else fs
  }

  /** The declared top-level opening balance has no influence on the value the
      aggregator reads: a festival whose stats were never written reads 0
      whatever its `openingBalance` field says. */
  lemma DeclaredOpeningIgnored(fs: map<ObjectId, Festival>, f: Festival, v: int)
    ensures OpeningOf(fs[f.id := f.(openingBalance := v)], f.id) == OpeningOf(fs[f.id := f], f.id)
    ensures f.stats.None? ==> OpeningOf(fs[f.id := f], f.id) == 0
  {
  }
}
