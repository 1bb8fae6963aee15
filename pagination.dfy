/** Page arithmetic shared by the recognition-log listing and the person
    listing: page `page` of size `size` asks the store for the inclusive row
    range `[offset, offset + size - 1]` with `offset = (page - 1) * size`,
    and reports a next page when `offset + size < total`. */
module Pagination {

  /** An inclusive row range, as passed to the query builder's `.range(first, last)`. */
  datatype RowRange = RowRange(first: int, last: int)

  function Offset(page: int, size: int): int {
    (page - 1) * size
  }

  /** The rows requested for a page: exactly `size` slots starting at the offset. */
  function PageRange(page: int, size: int): (r: RowRange)
    ensures r.first == Offset(page, size)
    ensures r.last - r.first + 1 == size
  {
    RowRange(Offset(page, size), Offset(page, size) + size - 1)
  }

  function HasNext(page: int, size: int, total: int): bool {
    Offset(page, size) + size < total
  }

  /** The 1-based page on which row index `i` is shown. */
  function PageOf(i: nat, size: int): (p: int)
    requires size > 0
    ensures p >= 1
    ensures PageRange(p, size).first <= i <= PageRange(p, size).last
  {
    PageOfBounds(i, size);
    i / size + 1
  }

  lemma PageOfBounds(i: nat, size: int)
    requires size > 0
    ensures (i / size) * size <= i < (i / size) * size + size
  {
  }

  /** Consecutive pages are adjacent: no row is skipped or shown twice
      between page `page` and page `page + 1`. */
  lemma NextPageIsAdjacent(page: int, size: int)
    ensures PageRange(page + 1, size).first == PageRange(page, size).last + 1
  {
    assert Offset(page + 1, size) == Offset(page, size) + size;
  }

  /** A row index is on exactly one page. */
  lemma {:induction false} PageIsUnique(i: nat, size: int, p: int)
    requires size > 0 && p >= 1
    requires PageRange(p, size).first <= i <= PageRange(p, size).last
    ensures p == PageOf(i, size)
  {
    var q := PageOf(i, size);
    if p < q {
      MonotoneOffset(p + 1, q, size);
      assert false;
    } else if q < p {
      MonotoneOffset(q + 1, p, size);
      assert false;
    }
  }

  lemma MonotoneOffset(p: int, q: int, size: int)
    requires p <= q && size > 0
    ensures Offset(p, size) <= Offset(q, size)
  {
    assert Offset(q, size) - Offset(p, size) == (q - p) * size;
  }

  /** For a real page (page >= 1, size >= 1), `has_next` holds exactly
      when some existing row (index below `total`) lies on a later page. */
  lemma {:induction false} HasNextIffLaterRow(page: int, size: int, total: int)
    requires page >= 1 && size > 0
    ensures HasNext(page, size, total) <==> exists i: nat :: i < total && PageOf(i, size) > page
  {
    var next: nat := Offset(page + 1, size);
    NextPageIsAdjacent(page, size);
    if HasNext(page, size, total) {
      assert PageRange(page + 1, size).first <= next <= PageRange(page + 1, size).last;
      PageIsUnique(next, size, page + 1);
      assert next < total && PageOf(next, size) > page;
    } else {
      forall i: nat | i < total
        ensures PageOf(i, size) <= page
      {
        var q := PageOf(i, size);
        if q > page {
          MonotoneOffset(page + 1, q, size);
          assert false;
        }
      }
    }
  }
}
