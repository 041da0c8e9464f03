/** Listing arithmetic shared by the two list handlers: the sort direction and
    the `$facet` pagination with its metadata. */
module Listing {
  import opened Common

  /** The metadata a list response carries beside its rows. */
  datatype PageMeta = PageMeta(total: int, page: int, limit: int, totalPages: int)

  datatype Page<T> = Page(items: seq<T>, meta: PageMeta)

  /** `sortOrder === "asc" ? 1 : -1`, with `"desc"` when absent. */
  function SortDirection(sortOrder: Option<string>): (d: int)
    ensures d == 1 || d == -1
    ensures d == 1 <==> sortOrder == Some("asc")
  {
    if sortOrder.GetOr("desc") == "asc" then 1 else -1
  }

  /** `$ceil: { $divide: [total, limit] }` for a positive limit: the least
      number of pages of `limit` rows that hold `total` rows. */
  function CeilDiv(total: nat, limit: nat): (pages: nat)
    requires limit > 0
    ensures total <= pages * limit
    ensures pages == 0 || (pages - 1) * limit < total
  {
    var q := total / limit;
    if total % limit == 0 then q else q + 1
  }

  /** `skip = (page - 1) * limit`: the number of rows before the page. */
  function Skip(page: int, limit: int): (skip: int)
    ensures page >= 1 && limit >= 0 ==> skip >= 0
  {
    (page - 1) * limit
  }

  function Min(a: int, b: int): int {
    if a <= b then a else b
  }

  /** The pagination step of a list handler. Pagination applies only when both
      `page` and `limit` are given: the rows from `skip = (page - 1) * limit`,
      at most `limit` of them, with `totalPages` the ceiling of total / limit,
      and total 0 with no pages when nothing matched. The database refuses a
      limit that is not positive and a negative skip. Without pagination all
      rows are returned with total = limit = their number and a single page. */
  function Paginate<T>(rows: seq<T>, page: Option<int>, limit: Option<int>): (r: Result<Page<T>, ApiError>)
    ensures !(page.Some? && limit.Some?) ==> r == Ok(Page(rows, PageMeta(|rows|, 1, |rows|, 1)))
    ensures page.Some? && limit.Some? ==> (r.Err? <==> limit.value < 1 || page.value < 1)
    ensures r.Err? ==> r.error == QueryRejected
    ensures page.Some? && limit.Some? && r.Ok? ==>
      var p, l, skip := page.value, limit.value, Skip(page.value, limit.value);
      && r.value.meta.page == p && r.value.meta.limit == l
      && r.value.meta.total == |rows|
      && |r.value.items| == (if skip < |rows| then Min(l, |rows| - skip) else 0)
      && (forall i :: 0 <= i < |r.value.items| ==> skip + i < |rows| && r.value.items[i] == rows[skip + i])
      && |rows| <= r.value.meta.totalPages * l
      && (r.value.meta.totalPages == 0 <==> |rows| == 0)
      && (r.value.meta.totalPages > 0 ==> (r.value.meta.totalPages - 1) * l < |rows|)
  {
    if !(page.Some? && limit.Some?) then
      Ok(Page(rows, PageMeta(|rows|, 1, |rows|, 1)))
    else
      var p, l := page.value, limit.value;
      // with a positive limit the skip is negative exactly when page < 1
      if l < 1 || p < 1 then
        Err(QueryRejected)
      else
        var skip := Skip(p, l);
        var data := if skip < |rows| then rows[skip..skip + Min(l, |rows| - skip)] else [];
        if |rows| == 0 then Ok(Page(data, PageMeta(0, p, l, 0)))
        else Ok(Page(data, PageMeta(|rows|, p, l, CeilDiv(|rows|, l))))
  }

  /** Every row lies on exactly the page the arithmetic predicts: row `k`
      is item `k % limit` of page `k / limit + 1`, and that page exists. */
  lemma PageOfRow<T>(rows: seq<T>, limit: int, k: nat)
    requires limit >= 1 && k < |rows|
    ensures var p := k / limit + 1;
      var r := Paginate(rows, Some(p), Some(limit));
      && r.Ok?
      && k % limit < |r.value.items|
      && r.value.items[k % limit] == rows[k]
      && p <= r.value.meta.totalPages
  {
    var p := k / limit + 1;
    var skip := Skip(p, limit);
    assert skip == (k / limit) * limit;
    assert skip + k % limit == k;
    var r := Paginate(rows, Some(p), Some(limit));
    assert r.Ok?;
    var pages := r.value.meta.totalPages;
    assert (p - 1) * limit < pages * limit;
    MulCancel(p - 1, pages, limit);
  }

  /** A strict inequality between multiples of a positive number holds
      between the factors. */
  lemma MulCancel(a: int, b: int, c: int)
    requires c > 0 && a * c < b * c
    ensures a < b
  {
    if b <= a {
      MulMonotone(b, a, c);
    }
  }

  lemma MulMonotone(a: int, b: int, c: int)
    requires a <= b && c >= 0
    ensures a * c <= b * c
  {
  }
}
