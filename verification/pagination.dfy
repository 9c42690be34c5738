/**
 * The page arithmetic that every paginated Action repeats in its
 * `getTotalPages` and `getItemsForPage`: a list control holds at most 25
 * items, the page count is `Math.ceil(count / 25)` and page `p` is
 * `slice(25 * p, 25 * (p + 1))`.
 */
module Pagination {

  /**
   * Items per list control, the protocol's cap. `TotalPages` and
   * `ItemsForPage` write it as the literal 25 so that their contracts stay
   * linear arithmetic wherever they are used.
   */
  const PageSize: nat := 25

  function Min(a: int, b: int): int
  {
    if a <= b then a else b
  }

  /** `Math.ceil(count / 25)` */
  function TotalPages(count: nat): (r: nat)
    ensures r * 25 >= count
    ensures r > 0 ==> (r - 1) * 25 < count
    ensures r == 0 <==> count == 0
  {
    (count + 25 - 1) / 25
  }

  /** `items.slice(page * 25, (page + 1) * 25)`; `slice` clamps both ends to the length. */
  function ItemsForPage<T>(items: seq<T>, page: nat): (r: seq<T>)
    ensures |r| <= 25
    ensures forall i :: 0 <= i < |r| ==> page * 25 + i < |items| && r[i] == items[page * 25 + i]
    ensures page < TotalPages(|items|) <==> r != []
    ensures page + 1 < TotalPages(|items|) ==> |r| == 25
  {
    var lo := Min(page * 25, |items|);
    var hi := Min((page + 1) * 25, |items|);
    items[lo..hi]
  }

  /** The pagination row is added to the components only past one page. */
  predicate ShowsPaginationRow(totalPages: nat)
  {
    totalPages > 1
  }

  /** Pages `0 .. k - 1` laid end to end. */
  function PagesUpTo<T>(items: seq<T>, k: nat): seq<T>
  {
    if k == 0 then [] else PagesUpTo(items, k - 1) + ItemsForPage(items, k - 1)
  }

  lemma {:induction false} PagesUpToPrefix<T>(items: seq<T>, k: nat)
    requires k <= TotalPages(|items|)
    ensures PagesUpTo(items, k) == items[..Min(k * PageSize, |items|)]
  {
    if k > 0 {
      PagesUpToPrefix(items, k - 1);
      var lo := Min((k - 1) * PageSize, |items|);
      var hi := Min(k * PageSize, |items|);
      assert lo == (k - 1) * PageSize;
      assert items[..hi] == items[..lo] + items[lo..hi];
    }
  }

  /** The pages `0 .. TotalPages - 1`, concatenated in order, are exactly the list. */
  lemma PagesPartitionItems<T>(items: seq<T>)
    ensures PagesUpTo(items, TotalPages(|items|)) == items
  {
    PagesUpToPrefix(items, TotalPages(|items|));
    assert items[..|items|] == items;
  }

  /** Item `i` of the list is at position `i % 25` of page `i / 25`. */
  lemma ItemOnItsPage<T>(items: seq<T>, i: nat)
    requires i < |items|
    ensures i / PageSize < TotalPages(|items|)
    ensures i % PageSize < |ItemsForPage(items, i / PageSize)|
    ensures ItemsForPage(items, i / PageSize)[i % PageSize] == items[i]
  {
    var p := i / PageSize;
    assert p * PageSize + i % PageSize == i;
    assert p * PageSize <= i < (p + 1) * PageSize;
  }

  /** A pagination row appears exactly when the list has more than 25 items. */
  lemma PaginationRowIffOverflow(count: nat)
    ensures ShowsPaginationRow(TotalPages(count)) <==> count > PageSize
  {
  }
}
