/**
 * `StandardResultsSetPagination`: page-number pagination with a page size
 * of 20, a `page_size` query parameter and a cap of 100 items per page.
 */
module Pagination {
  import opened Wrappers
  import opened Domain

  const DefaultPageSize: nat := 20
  const MaxPageSize: nat := 100

  /**
   * The page size for a request: a positive requested size capped at 100;
   * an absent, zero or negative request falls back to 20.
   */
  function PageSize(requested: Option<int>): (n: nat)
    ensures 1 <= n <= MaxPageSize
    ensures requested.Some? && requested.value > 0 ==>
      n == (if requested.value < MaxPageSize then requested.value else MaxPageSize)
    ensures !(requested.Some? && requested.value > 0) ==> n == DefaultPageSize
  {
    match requested
    case Some(k) => if k <= 0 then DefaultPageSize else if k > MaxPageSize then MaxPageSize else k
    case None => DefaultPageSize
  }

  /** One page of results with the total count and whether next and previous links exist. */
  datatype Page<T> = Page(count: nat, hasNext: bool, hasPrevious: bool, results: seq<T>)

  /** The number of pages; an empty result still has one (empty) first page. */
  function NumPages(count: nat, size: nat): nat
    requires size > 0
  {
    if count == 0 then 1 else (count + size - 1) / size
  }

  /** The position of the first item of page `page`. */
  function PageStart(page: int, size: nat): int {
    (page - 1) * size
  }

  /** One past the position of the last item of page `page`. */
  function PageEnd(count: nat, page: int, size: nat): int {
    var bottom := PageStart(page, size);
    if bottom + size >= count then count else bottom + size
  }

  /**
   * Page number `page` of `items`: NotFound outside 1..NumPages, otherwise
   * at most `size` items starting at position (page - 1) * size.
   */
  function Paginate<T>(items: seq<T>, page: int, size: nat): (r: Result<Page<T>, Error>)
    requires size > 0
    ensures r.Ok? <==> page == 1 || (1 <= page && PageStart(page, size) < |items|)
    ensures r.Err? ==> r.error == NotFound
    ensures r.Ok? ==> 0 <= PageStart(page, size) <= PageEnd(|items|, page, size) <= |items|
    ensures r.Ok? ==> r.value.results == items[PageStart(page, size)..PageEnd(|items|, page, size)]
    ensures r.Ok? ==> r.value.count == |items| && |r.value.results| <= size
    ensures r.Ok? ==> (r.value.hasNext <==> PageStart(page, size) + size < |items|)
    ensures r.Ok? ==> (r.value.hasPrevious <==> page > 1)
  {
    var pages := NumPages(|items|, size);
    PagesBound(|items|, size, page);
    if page < 1 || page > pages then Err(NotFound)
    else Ok(Page(|items|, page < pages, page > 1, items[PageStart(page, size)..PageEnd(|items|, page, size)]))
  }

  lemma MulMonotone(a: int, b: int, s: nat)
    requires a <= b
    ensures a * s <= b * s
  {
    assert b * s - a * s == (b - a) * s;
  }

  /** The last page is the one whose range reaches the final item. */
  lemma LastPageBounds(count: nat, size: nat)
    requires size > 0 && count > 0
    ensures (NumPages(count, size) - 1) * size < count <= NumPages(count, size) * size
  {
    var q := (count + size - 1) / size;
    var m := (count + size - 1) % size;
    assert q * size + m == count + size - 1;
    assert (q - 1) * size == q * size - size;
  }

  /** How the page count relates to the offsets of the pages. */
  lemma PagesBound(count: nat, size: nat, page: int)
    requires size > 0
    ensures 1 <= page <= NumPages(count, size) <==> page == 1 || (1 <= page && PageStart(page, size) < count)
    ensures 1 <= page ==> 0 <= PageStart(page, size)
    ensures 1 <= page ==> (page < NumPages(count, size) <==> PageStart(page, size) + size < count)
  {
    var n := NumPages(count, size);
    if 1 <= page {
      MulMonotone(0, page - 1, size);
      assert PageStart(page, size) + size == page * size;
      if count > 0 {
        LastPageBounds(count, size);
        if page <= n {
          MulMonotone(page - 1, n - 1, size);
        } else {
          MulMonotone(n, page - 1, size);
        }
        if page < n {
          MulMonotone(page, n - 1, size);
        } else {
          MulMonotone(n, page, size);
        }
      }
    }
  }
}
