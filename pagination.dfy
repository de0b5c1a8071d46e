/** The training table's pagination: which slice of the filtered list a page shows, how many
    pages there are, and when the Previous and Next buttons are enabled. */
module Pagination {

  function Min(a: int, b: int): int {
    if a <= b then a else b
  }

  /** `Math.ceil(len / perPage)`. */
  function TotalPages(len: nat, perPage: nat): (r: nat)
    requires perPage >= 1
    ensures r * perPage >= len
    ensures r == 0 || (r - 1) * perPage < len
    ensures r == 0 <==> len == 0
  {
    (len + perPage - 1) / perPage
  }

  /** `s.slice(start, end)` for non-negative bounds: both are clipped to the length. */
  function Slice<T>(s: seq<T>, start: nat, end: nat): (r: seq<T>)
    ensures |r| == if Min(end, |s|) > start then Min(end, |s|) - start else 0
    ensures forall i :: 0 <= i < |r| ==> start + i < |s| && r[i] == s[start + i]
  {
    var a, b := Min(start, |s|), Min(end, |s|);
    if a < b then s[a..b] else []
  }

  /** The first index a page shows: `currentPage * itemsPerPage - itemsPerPage`. */
  function FirstIndex(page: int, perPage: nat): nat
    requires page >= 1
  {
    (page - 1) * perPage
  }

  /** The items page `page` shows: `filteredTrainings.slice(first, page * perPage)`. */
  function PageItems<T>(list: seq<T>, page: int, perPage: nat): (r: seq<T>)
    requires page >= 1 && perPage >= 1
    ensures |r| <= perPage
    ensures |r| == if FirstIndex(page, perPage) < |list| then Min(perPage, |list| - FirstIndex(page, perPage)) else 0
    ensures forall i :: 0 <= i < |r| ==>
              FirstIndex(page, perPage) + i < |list| && r[i] == list[FirstIndex(page, perPage) + i]
  {
    Slice(list, FirstIndex(page, perPage), page * perPage)
  }

  /** Every page up to the last holds at least one item; every page after it holds none. */
  lemma {:induction false} PageNonEmptyIffInRange<T>(list: seq<T>, page: int, perPage: nat)
    requires page >= 1 && perPage >= 1
    ensures PageItems(list, page, perPage) != [] <==> page <= TotalPages(|list|, perPage)
  {
    var total := TotalPages(|list|, perPage);
    if page <= total {
      MulMonotone(page - 1, total - 1, perPage);
    } else {
      MulMonotone(total, page - 1, perPage);
    }
  }

  /** Multiplying by a natural number keeps the order. */
  lemma MulMonotone(a: int, b: int, n: nat)
    requires 0 <= a <= b
    ensures a * n <= b * n
  {
    var d := b - a;
    assert b * n == a * n + d * n;
  }

  /** Pages 1 to `k`, one after another. */
  function PagesUpTo<T>(list: seq<T>, perPage: nat, k: nat): seq<T>
    requires perPage >= 1
  {
    if k == 0 then [] else PagesUpTo(list, perPage, k - 1) + PageItems(list, k, perPage)
  }

  /** Pages 1 to `k` together are the first `k * perPage` items (or all of them). */
  lemma {:induction false} PagesUpToPrefix<T>(list: seq<T>, perPage: nat, k: nat)
    requires perPage >= 1
    ensures PagesUpTo(list, perPage, k) == list[..Min(k * perPage, |list|)]
  {
    if k > 0 {
      PagesUpToPrefix(list, perPage, k - 1);
      var lo := Min((k - 1) * perPage, |list|);
      var hi := Min(k * perPage, |list|);
      assert k * perPage == (k - 1) * perPage + perPage;
      var page := PageItems(list, k, perPage);
      assert lo <= hi;
      assert |page| == hi - lo;
      assert list[..hi] == list[..lo] + list[lo..hi];
      assert page == list[lo..hi];
    }
  }

  /** Concatenating pages 1 to `totalPages` gives back the whole list, in order. */
  lemma AllPagesReproduceList<T>(list: seq<T>, perPage: nat)
    requires perPage >= 1
    ensures PagesUpTo(list, perPage, TotalPages(|list|, perPage)) == list
  {
    var total := TotalPages(|list|, perPage);
    PagesUpToPrefix(list, perPage, total);
    assert Min(total * perPage, |list|) == |list|;
  }

  /** The item at index `x` is shown on page `x / perPage + 1`, at position `x % perPage`. */
  lemma ItemOnItsPage<T>(list: seq<T>, perPage: nat, x: nat)
    requires perPage >= 1 && x < |list|
    ensures var page := PageItems(list, x / perPage + 1, perPage);
            x % perPage < |page| && page[x % perPage] == list[x]
  {
    assert FirstIndex(x / perPage + 1, perPage) == x / perPage * perPage;
    assert x / perPage * perPage + x % perPage == x;
  }

  /** The Previous button is disabled on page 1: from any page, it is enabled exactly when
      the page before is still page 1 or later. */
  predicate PrevEnabled(current: int): (r: bool)
    ensures current >= 1 ==> (r <==> current - 1 >= 1)
  {
    current != 1
  }

  /** The Next button is disabled only when the current page equals the page count: from a page
      no later than the last, it is enabled exactly when the page after is still a page. */
  predicate NextEnabled(current: int, total: nat): (r: bool)
    ensures current <= total ==> (r <==> current + 1 <= total)
  {
    current != total
  }

  /** The Next button does not keep the page in range: with no items there are no pages,
      yet Next is enabled on page 1 and leads to page 2, past `max(totalPages, 1)`. */
  lemma NextLeavesRange(perPage: nat)
    requires perPage >= 1
    ensures NextEnabled(1, TotalPages(0, perPage))
    ensures 1 + 1 > if TotalPages(0, perPage) > 1 then TotalPages(0, perPage) else 1
  {
  }
}
