/**
 * The offset arithmetic shared by the song listing (FetchSongs) and the verse
 * pages of a song's text (FetchSongText): with `limit` items per page, page
 * `page` (counted from 1) skips the items of the pages before it.
 *
 * The source computes on Go's 64-bit `int`, which wraps around. PageStart is
 * the value on unbounded integers; Wrap64 is what the 64-bit arithmetic
 * yields, and PageFits says when the two agree for a whole page.
 */
module Paging {

  /** The largest and the smallest value of Go's 64-bit int. */
  const Int64Max: int := 0x7fff_ffff_ffff_ffff
  const Int64Min: int := -0x8000_0000_0000_0000

  /** The number of distinct 64-bit values. */
  const TwoTo64: int := 0x1_0000_0000_0000_0000

  predicate InInt64(x: int) {
    Int64Min <= x <= Int64Max
  }

  /**
   * The 64-bit two's-complement value of x: the one value in the int64 range
   * that is congruent to x modulo 2^64. Values already in range are kept.
   */
  function Wrap64(x: int): (r: int)
    ensures InInt64(r)
    ensures (x - r) % TwoTo64 == 0
    ensures InInt64(x) ==> r == x
  {
    (x - Int64Min) % TwoTo64 + Int64Min
  }

  /** The number of items before page `page`: (page - 1) * limit. */
  function PageStart(page: int, limit: int): (start: int)
    requires page >= 1 && limit >= 1
    ensures start >= 0
    ensures page == 1 <==> start == 0
  {
    (page - 1) * limit
  }

  /**
   * The offset of the song listing as Go computes it: (page - 1) * limit in
   * 64-bit arithmetic, exact when the product fits in Go's int.
   */
  function ListingOffset(page: int, limit: int): (offset: int)
    ensures InInt64(offset) && (offset - (page - 1) * limit) % TwoTo64 == 0
    ensures InInt64((page - 1) * limit) ==> offset == (page - 1) * limit
  {
    Wrap64((page - 1) * limit)
  }

  /** Each page starts where the previous one ends. */
  lemma NextPageStart(page: int, limit: int)
    requires page >= 1 && limit >= 1
    ensures PageStart(page + 1, limit) == PageStart(page, limit) + limit
  {
  }

  /**
   * The start and the end of page `page` are both within Go's int, so the
   * 64-bit computation of start and end does not wrap.
   */
  predicate PageFits(page: int, limit: int) {
    page >= 1 && limit >= 1 && PageStart(page, limit) + limit <= Int64Max
  }

  /** For a page that fits, the 64-bit start and end are the exact ones. */
  lemma PageFitsNoWrap(page: int, limit: int)
    requires PageFits(page, limit)
    ensures Wrap64(PageStart(page, limit)) == PageStart(page, limit)
    ensures Wrap64(PageStart(page, limit) + limit) == PageStart(page, limit) + limit
  {
    assert InInt64(PageStart(page, limit));
    assert InInt64(PageStart(page, limit) + limit);
  }

  /** With one item per page (the verse endpoint), every positive int64 page fits. */
  lemma OneItemPagesFit(page: int)
    requires 1 <= page <= Int64Max
    ensures PageFits(page, 1)
  {
    assert PageStart(page, 1) == page - 1;
  }

  /** The page before a page that fits fits as well. */
  lemma EarlierPageFits(page: int, limit: int)
    requires page >= 2 && PageFits(page, limit)
    ensures PageFits(page - 1, limit)
  {
    NextPageStart(page - 1, limit);
  }

  /**
   * Where a page does not fit, the 64-bit start can come out negative: page 3
   * of 2^62 items starts at -2^63 (where the verse slice panics).
   */
  lemma WrappedPageStart()
    ensures !PageFits(3, 0x4000_0000_0000_0000)
    ensures Wrap64(PageStart(3, 0x4000_0000_0000_0000)) == Int64Min
  {
    assert PageStart(3, 0x4000_0000_0000_0000) == 0x8000_0000_0000_0000;
  }
}
