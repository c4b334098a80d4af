/** Page metadata attached to every list response (PaginationResponse.of). */
module Pagination {

  datatype PaginationResponse = PaginationResponse(
    page: int,
    size: int,
    totalElements: int,
    totalPages: int,
    hasNext: bool,
    hasPrevious: bool)

  /**
    The least k with k * size >= total, i.e. the ceiling of total / size.
    Math.ceil of the double quotient is exact for totals below 2^53.
   */
  function CeilDiv(total: int, size: int): (k: int)
    requires size > 0
    ensures (k - 1) * size < total <= k * size
  {
    var q := (-total) / size;
    assert -total == q * size + (-total) % size;
    -q
  }

  function Of(page: int, size: int, totalElements: int): (r: PaginationResponse)
    ensures r.page == page && r.size == size && r.totalElements == totalElements
    ensures size <= 0 ==> r.totalPages == 0
    ensures size > 0 ==> (r.totalPages - 1) * size < totalElements <= r.totalPages * size
    ensures r.hasNext <==> page < r.totalPages - 1
    ensures r.hasPrevious <==> page > 0
  {
    var totalPages := if size > 0 then CeilDiv(totalElements, size) else 0;
    PaginationResponse(page, size, totalElements, totalPages, page < totalPages - 1, page > 0)
  }

  /** With a positive size, there is a next page exactly when elements lie beyond this one. */
  lemma HasNextIffElementsBeyondPage(page: int, size: int, totalElements: int)
    requires size > 0
    ensures Of(page, size, totalElements).hasNext <==> (page + 1) * size < totalElements
  {
    var k := Of(page, size, totalElements).totalPages;
    ScaleStrict(k - 1, page + 1, size);
    ScaleStrict(page + 1, k, size);
  }

  /** With a positive factor, a product has the sign of the other factor. */
  lemma SignOfProduct(k: int, size: int)
    requires size > 0
    ensures k * size >= 0 <==> k >= 0
  {
  }

  /** Scaling by a positive factor keeps strict order, both ways. */
  lemma ScaleStrict(a: int, b: int, size: int)
    requires size > 0
    ensures a < b <==> a * size < b * size
  {
    assert (a - b) * size == a * size - b * size;
    SignOfProduct(a - b, size);
  }

  /** No elements: no pages and, from page 0 on, no next page. */
  lemma EmptyHasNoPages(page: int, size: int)
    requires page >= 0
    ensures Of(page, size, 0).totalPages == 0
    ensures !Of(page, size, 0).hasNext
  {
    if size > 0 {
      var k := Of(page, size, 0).totalPages;
      assert (k - 1) * size < 0 <= k * size;
      SignOfProduct(k, size);
      SignOfProduct(k - 1, size);
    }
  }

  /** The one-page summary used for unpaged lists of n > 0 elements. */
  lemma SinglePage(n: int)
    requires n > 0
    ensures Of(0, n, n).totalPages == 1
    ensures !Of(0, n, n).hasNext && !Of(0, n, n).hasPrevious
  {
    var k := Of(0, n, n).totalPages;
    assert (k - 1) * n < n <= k * n;
    assert (k - 2) * n == (k - 1) * n - n;
    SignOfProduct(k - 2, n);
    SignOfProduct(k - 1, n);
  }
}
