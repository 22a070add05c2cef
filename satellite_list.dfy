/**
 * The pagination of src/components/SatelliteList.tsx: the page count, the
 * bounds and items of the current page, the clamped page moves, the
 * disabled states of the two buttons and the reset to the first page when
 * the length of the list changes.
 */
module SatelliteList {
  import opened Numeric

  const PageSize: nat := 10

  /** `Math.max(1, Math.ceil(total / PAGE_SIZE))`. */
  function TotalPages(total: nat): (n: nat)
    ensures n >= 1
    ensures total == 0 ==> n == 1
    // the smallest number of pages of PageSize that hold `total` items
    ensures total > 0 ==> (n - 1) * PageSize < total <= n * PageSize
  {
    var pages := (total + PageSize - 1) / PageSize;
    if pages > 1 then pages else 1
  }

  /** `page * PAGE_SIZE`. */
  function StartIndex(page: nat): nat {
    page * PageSize
  }

  /** `Math.min(startIndex + PAGE_SIZE, total)`. */
  function EndIndex(page: nat, total: nat): (e: nat)
    ensures e <= total && e <= StartIndex(page) + PageSize
    ensures e == total || e == StartIndex(page) + PageSize
  {
    Min(StartIndex(page) + PageSize, total)
  }

  /** `s.slice(start, end)` for non-negative bounds: both are capped at |s|, and a reversed range is empty. */
  function JsSlice<T>(s: seq<T>, start: nat, end: nat): (r: seq<T>)
    ensures |r| == Max(0, Min(end, |s|) - Min(start, |s|))
    ensures forall k :: 0 <= k < |r| ==> r[k] == s[start + k]
  {
    var from := Min(start, |s|);
    var to := Min(end, |s|);
    if from >= to then [] else s[from..to]
  }

  /** `satellitesAbove.slice(startIndex, endIndex)`. */
  function CurrentPage<T>(items: seq<T>, page: nat): (r: seq<T>)
    ensures |r| <= PageSize
    ensures |r| == Max(0, Min(PageSize, |items| - StartIndex(page)))
    ensures forall k :: 0 <= k < |r| ==> r[k] == items[StartIndex(page) + k]
  {
    JsSlice(items, StartIndex(page), EndIndex(page, |items|))
  }

  /** A page in range is never empty unless the whole list is. */
  lemma PageInRangeIsFilled<T>(items: seq<T>, page: nat)
    requires |items| > 0 && page < TotalPages(|items|)
    ensures 0 < |CurrentPage(items, page)|
  {
  }

  /** Item k is shown on page k / PageSize, at row k % PageSize. */
  lemma ItemIsOnItsPage<T>(items: seq<T>, k: nat)
    requires k < |items|
    ensures k / PageSize < TotalPages(|items|)
    ensures k % PageSize < |CurrentPage(items, k / PageSize)|
    ensures CurrentPage(items, k / PageSize)[k % PageSize] == items[k]
  {
    assert StartIndex(k / PageSize) + k % PageSize == k;
  }

  /** The pages from `page` up to the last, one after another. */
  function PagesFrom<T>(items: seq<T>, page: nat): seq<T>
    decreases TotalPages(|items|) - page
  {
    if page >= TotalPages(|items|) then []
    else CurrentPage(items, page) + PagesFrom(items, page + 1)
  }

  lemma {:induction false} PagesFromIsSuffix<T>(items: seq<T>, page: nat)
    requires page <= TotalPages(|items|)
    ensures PagesFrom(items, page) == items[Min(StartIndex(page), |items|)..]
    decreases TotalPages(|items|) - page
  {
    if page == TotalPages(|items|) {
      assert Min(StartIndex(page), |items|) == |items|;
    } else {
      PagesFromIsSuffix(items, page + 1);
      PageIsSlice(items, page);
      var from := Min(StartIndex(page), |items|);
      var next := Min(StartIndex(page + 1), |items|);
      assert items[from..next] + items[next..] == items[from..];
    }
  }

  /** The current page is the stretch of the list between this page's start and the next one's. */
  lemma PageIsSlice<T>(items: seq<T>, page: nat)
    ensures Min(StartIndex(page), |items|) <= Min(StartIndex(page + 1), |items|)
    ensures CurrentPage(items, page) == items[Min(StartIndex(page), |items|)..Min(StartIndex(page + 1), |items|)]
  {
    assert StartIndex(page + 1) == StartIndex(page) + PageSize;
  }

  /** Read in order, the pages show every item exactly once and nothing else. */
  lemma PagesPartitionList<T>(items: seq<T>)
    ensures PagesFrom(items, 0) == items
  {
    PagesFromIsSuffix(items, 0);
  }

  /** The page lies in the range the controls maintain. */
  predicate InRange(page: int, total: nat) {
    0 <= page < TotalPages(total)
  }

  /** `p => Math.max(0, p - 1)`. */
  function GoPrev(p: int): (r: int)
    ensures r >= 0 && r <= Max(p, 0)
    ensures p >= 1 ==> r == p - 1
    ensures p <= 0 ==> r == 0
  {
    Max(0, p - 1)
  }

  /** `p => Math.min(totalPages - 1, p + 1)`. */
  function GoNext(p: int, total: nat): (r: int)
    ensures r <= TotalPages(total) - 1
    ensures p < TotalPages(total) - 1 ==> r == p + 1
    ensures p >= TotalPages(total) - 1 ==> r == TotalPages(total) - 1
  {
    Min(TotalPages(total) - 1, p + 1)
  }

  /** `() => Math.max(0, Math.min(totalPages - 1, p))`. */
  function JumpTo(p: int, total: nat): (r: int)
    ensures InRange(r, total)
    ensures InRange(p, total) ==> r == p
    ensures p < 0 ==> r == 0
    ensures p >= TotalPages(total) ==> r == TotalPages(total) - 1
  {
    Max(0, Min(TotalPages(total) - 1, p))
  }

  /** `disabled={page === 0}`. */
  predicate PrevDisabled(page: int) {
    page == 0
  }

  /** `disabled={page >= totalPages - 1}`. */
  predicate NextDisabled(page: int, total: nat) {
    page >= TotalPages(total) - 1
  }

  /** On a page in range, a button is disabled exactly when pressing it would not move. */
  lemma DisabledExactlyWhenStuck(page: int, total: nat)
    requires InRange(page, total)
    ensures PrevDisabled(page) <==> GoPrev(page) == page
    ensures NextDisabled(page, total) <==> GoNext(page, total) == page
  {
  }

  /** Every move keeps the page in range, and from page 0 every move stays there if there is one page. */
  lemma MovesStayInRange(page: int, p: int, total: nat)
    requires InRange(page, total)
    ensures InRange(GoPrev(page), total)
    ensures InRange(GoNext(page, total), total)
    ensures InRange(JumpTo(p, total), total)
    ensures TotalPages(total) == 1 ==> GoPrev(page) == 0 && GoNext(page, total) == 0
  {
  }

  /** The page after a render: the reset effect runs when the list's length differs. */
  function AfterListChange(page: int, oldTotal: nat, newTotal: nat): (r: int)
    ensures oldTotal != newTotal ==> r == 0
    ensures oldTotal == newTotal ==> r == page
  {
    if oldTotal != newTotal then 0 else page
  }

  lemma ListChangeKeepsRange(page: int, oldTotal: nat, newTotal: nat)
    requires InRange(page, oldTotal)
    ensures InRange(AfterListChange(page, oldTotal, newTotal), newTotal)
  {
  }
}
