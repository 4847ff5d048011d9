/**
 * The activity log of a project workspace: the fetched entries are filtered
 * to the project and shown a page at a time, with a page-size select, a
 * five-wide window of page buttons and First/Previous/Next/Last controls.
 * The current page and page size are component state, modelled as a class.
 */
module ActivityPagination {
  import opened Wrappers
  import opened Entities
  import opened Rollups

  /** Number of page buttons shown at most. */
  const WindowSize := 5
  /** The page size the workspace starts with. */
  const DefaultPageSize := 10

  /** The values the "Show … per page" select offers. */
  predicate IsPageSizeOption(size: int) {
    size == 10 || size == 20 || size == 50
  }

  /** The activity endpoint's answer: a page object whose `results` may be missing. */
  datatype ActivityPayload = ActivityPayload(results: Option<seq<ActivityLog>>)

  function ActivityRef(a: ActivityLog): ProjectRef { a.projectRef }

  /** `activityPayload?.results ?? []`, then the entries of the route's project. */
  function ActivityFiltered(payload: Option<ActivityPayload>, projectId: Option<string>): (r: seq<ActivityLog>)
    ensures forall a :: a in r <==>
              payload.Some? && payload.value.results.Some? && a in payload.value.results.value
              && BelongsTo(a.projectRef, projectId)
    ensures payload.None? || payload.value.results.None? ==> r == []
  {
    var items := if payload.Some? && payload.value.results.Some? then payload.value.results.value else [];
    FilterByProjectExact(items, ActivityRef, projectId);
    FilterByProject(items, ActivityRef, projectId)
  }

  /** `Math.ceil(n / size)` for a count and a positive size. */
  function CeilDiv(n: nat, size: nat): nat
    requires size > 0
  {
    (n + size - 1) / size
  }

  /** `Math.max(a, b)`. */
  function Max(a: int, b: int): int {
    if a < b then b else a
  }

  /** `activityTotalPages`: one page for an empty list, otherwise enough pages for every entry. */
  function TotalPages(count: nat, size: nat): (r: nat)
    requires size > 0
    ensures r >= 1
    ensures count == 0 ==> r == 1
    ensures count > 0 ==> (r - 1) * size < count <= r * size
  {
    if count == 0 then 1
    else
      CeilDivBounds(count, size);
      Max(1, CeilDiv(count, size))
  }

  /** `(p - 1) * size + size` is `p * size`. */
  lemma MulStep(p: int, size: int)
    ensures (p - 1) * size + size == p * size
  {
  }

  /** Multiplying by a non-negative size keeps the order. */
  lemma MulMono(a: int, b: int, size: nat)
    requires a <= b
    ensures a * size <= b * size
  {
  }

  /** The ceiling quotient is the least number of pages that holds every entry. */
  lemma CeilDivBounds(n: nat, size: nat)
    requires size > 0 && n > 0
    ensures CeilDiv(n, size) >= 1
    ensures (CeilDiv(n, size) - 1) * size < n <= CeilDiv(n, size) * size
  {
    var c := CeilDiv(n, size);
    var m := n + size - 1;
    assert m == c * size + m % size;
    assert 0 <= m % size < size;
  }

  /** How `Array.prototype.slice` reads an index: negative counts from the end, then clamped. */
  function SliceIndex(i: int, len: nat): (r: nat)
    ensures r <= len
    ensures 0 <= i <= len ==> r == i
    ensures i > len ==> r == len
  {
    if i < 0 then (if len + i < 0 then 0 else len + i) else if i > len then len else i
  }

  /** `items.slice(start, end)`. */
  function JsSlice<T>(items: seq<T>, start: int, end: int): (r: seq<T>)
    ensures |r| <= |items|
  {
    var from := SliceIndex(start, |items|);
    var to := SliceIndex(end, |items|);
    if from < to then items[from..to] else []
  }

  /** `activityPageItems`: the slice that starts `(page - 1) * size` entries in. */
  function PageItems<T>(items: seq<T>, page: int, size: nat): seq<T> {
    var start := (page - 1) * size;
    JsSlice(items, start, start + size)
  }

  /**
   * Page p of a list holds the entries from `(p - 1) * size` up to
   * `p * size` (or the end of the list); there are never more than `size`
   * of them, and a page past the last one is empty.
   */
  lemma PageItemsRange<T>(items: seq<T>, page: int, size: nat)
    requires page >= 1 && size > 0
    ensures var start := (page - 1) * size;
            && |PageItems(items, page, size)| <= size
            && (start < |items| ==>
                  PageItems(items, page, size) == items[start..if page * size < |items| then page * size else |items|])
            && (start >= |items| ==> PageItems(items, page, size) == [])
            && (page > TotalPages(|items|, size) ==> PageItems(items, page, size) == [])
  {
    var start := (page - 1) * size;
    MulMono(0, page - 1, size);
    MulStep(page, size);
    if page > TotalPages(|items|, size) {
      MulMono(TotalPages(|items|, size), page - 1, size);
    }
  }

  /** A page with entries is the slice from `(p - 1) * size` to some end within the list. */
  lemma PageSlice<T>(items: seq<T>, page: int, size: nat) returns (start: nat, end: nat)
    requires page >= 1 && size > 0
    requires |PageItems(items, page, size)| > 0
    ensures start == (page - 1) * size && start < end <= |items|
    ensures PageItems(items, page, size) == items[start..end]
  {
    PageItemsRange(items, page, size);
    MulMono(0, page - 1, size);
    start := (page - 1) * size;
    end := if page * size < |items| then page * size else |items|;
    MulStep(page, size);
  }

  /** The k-th entry of page p is the entry `(p - 1) * size + k` of the list. */
  lemma PageItemsAt<T>(items: seq<T>, page: int, size: nat, k: nat)
    requires page >= 1 && size > 0
    requires k < |PageItems(items, page, size)|
    ensures (page - 1) * size + k < |items|
    ensures PageItems(items, page, size)[k] == items[(page - 1) * size + k]
  {
    var start, end := PageSlice(items, page, size);
  }

  /** Pages 1..k, one after the other. */
  function PagesUpTo<T>(items: seq<T>, size: nat, k: nat): seq<T> {
    if k == 0 then [] else PagesUpTo(items, size, k - 1) + PageItems(items, k, size)
  }

  /** The first k pages are exactly the first `k * size` entries (or all of them). */
  lemma {:induction false} PagesUpToPrefix<T>(items: seq<T>, size: nat, k: nat)
    requires size > 0
    ensures PagesUpTo(items, size, k) == items[..if k * size < |items| then k * size else |items|]
  {
    if k > 0 {
      PagesUpToPrefix(items, size, k - 1);
      PageItemsRange(items, k, size);
      var prev := if (k - 1) * size < |items| then (k - 1) * size else |items|;
      var next := if k * size < |items| then k * size else |items|;
      if (k - 1) * size < |items| {
        assert items[..prev] + items[prev..next] == items[..next];
      } else {
        assert (k - 1) * size <= k * size;
        assert PageItems(items, k, size) == [] by {
          assert (k - 1) * size >= |items|;
        }
      }
    }
  }

  /**
   * Pages 1 to the last page, one after the other, give back the whole
   * filtered list: every entry is shown on exactly one page, in order.
   */
  lemma PagesPartition<T>(items: seq<T>, size: nat)
    requires size > 0
    ensures PagesUpTo(items, size, TotalPages(|items|, size)) == items
  {
    var t := TotalPages(|items|, size);
    PagesUpToPrefix(items, size, t);
    assert |items| <= t * size;
    assert items[..|items|] == items;
  }

  /** Euclidean division by a positive size. */
  lemma DivMod(i: nat, size: nat)
    requires size > 0
    ensures i == (i / size) * size + i % size && 0 <= i % size < size
  {
  }

  /** The entry at index i is on page `i / size + 1`, at position `i % size`. */
  lemma PageOfIndex<T>(items: seq<T>, size: nat, i: nat)
    requires size > 0 && i < |items|
    ensures var p := i / size + 1;
            && 1 <= p <= TotalPages(|items|, size)
            && i % size < |PageItems(items, p, size)|
            && PageItems(items, p, size)[i % size] == items[i]
  {
    var q, r := i / size, i % size;
    var p := q + 1;
    DivMod(i, size);
    MulStep(p, size);
    assert (p - 1) * size + r == i;
    var t := TotalPages(|items|, size);
    if p > t {
      MulMono(t, p - 1, size);
      assert false;
    }
    PageItemsRange(items, p, size);
    var end := if p * size < |items| then p * size else |items|;
    assert PageItems(items, p, size) == items[(p - 1) * size..end];
  }

  /** `activityPageWindow`: up to five consecutive page numbers around the current page. */
  function PageWindow(page: int, totalPages: int): seq<int> {
    var start := if page - 2 > 1 then page - 2 else 1;
    var end := if totalPages < start + WindowSize - 1 then totalPages else start + WindowSize - 1;
    var first := if end - WindowSize + 1 > 1 then end - WindowSize + 1 else 1;
    var length := end - first + 1;
    if length <= 0 then [] else seq(length, i => first + i)
  }

  /**
   * The window holds min(5, totalPages) consecutive pages, all within
   * 1..totalPages. It contains the current page whenever that page exists,
   * puts it in the middle when there is room on both sides, and shows the
   * last pages when the current page is past the end.
   */
  lemma PageWindowShape(page: int, totalPages: int)
    requires totalPages >= 1
    ensures var w := PageWindow(page, totalPages);
            && |w| == (if totalPages < WindowSize then totalPages else WindowSize)
            && (forall i :: 0 <= i < |w| ==> w[i] == w[0] + i)
            && w[0] >= 1 && w[|w| - 1] <= totalPages
            && (1 <= page <= totalPages ==> page in w)
            && (3 <= page <= totalPages - 2 ==> w[0] == page - 2 && w[|w| - 1] == page + 2)
            && (page >= totalPages ==> w[|w| - 1] == totalPages)
  {
    var w := PageWindow(page, totalPages);
    if 1 <= page <= totalPages {
      var start := if page - 2 > 1 then page - 2 else 1;
      var end := if totalPages < start + WindowSize - 1 then totalPages else start + WindowSize - 1;
      var first := if end - WindowSize + 1 > 1 then end - WindowSize + 1 else 1;
      assert w[page - first] == page;
    }
  }

  /** `Math.max(1, prev - 1)`. */
  function PreviousPage(page: int): int {
    if page - 1 > 1 then page - 1 else 1
  }

  /** `Math.min(activityTotalPages, prev + 1)`. */
  function NextPage(page: int, totalPages: int): int {
    if totalPages < page + 1 then totalPages else page + 1
  }

  /**
   * Previous and Next stay within 1..totalPages and move one page, except
   * at the ends, where they stay put; each undoes the other away from the
   * ends.
   */
  lemma NavigationSteps(page: int, totalPages: int)
    requires 1 <= page <= totalPages
    ensures 1 <= PreviousPage(page) <= totalPages && 1 <= NextPage(page, totalPages) <= totalPages
    ensures PreviousPage(page) == (if page == 1 then 1 else page - 1)
    ensures NextPage(page, totalPages) == (if page == totalPages then totalPages else page + 1)
    ensures page < totalPages ==> PreviousPage(NextPage(page, totalPages)) == page
    ensures page > 1 ==> NextPage(PreviousPage(page), totalPages) == page
  {
  }

  /** The current page and page size of the activity table. */
  class ActivityPager {
    var page: int
    var pageSize: nat

    /** The page is a page number and the size one of the select's options. */
    predicate Valid()
      reads this
    {
      page >= 1 && IsPageSizeOption(pageSize)
    }

    /** `useState(1)` and `useState(10)`. */
    constructor ()
      ensures Valid() && page == 1 && pageSize == DefaultPageSize
    {
      page, pageSize := 1, DefaultPageSize;
    }

    /** The entries the table shows now. */
    function Shown(filtered: seq<ActivityLog>): seq<ActivityLog>
      reads this
    {
      PageItems(filtered, page, pageSize)
    }

    /** First and Previous are disabled on page 1. */
    predicate AtFirst()
      reads this
    {
      page == 1
    }

    /** Next and Last are disabled on the last page. */
    predicate AtLast(filteredCount: nat)
      reads this
      requires Valid()
    {
      page == TotalPages(filteredCount, pageSize)
    }

    /** The select's change handler: set the size, then go back to page 1. */
    method SetPageSize(size: int)
      requires Valid() && IsPageSizeOption(size)
      modifies this
      ensures Valid() && pageSize == size && page == 1
    {
      pageSize := size;
      page := 1;
    }

    /** First: page 1. */
    method First()
      requires Valid()
      modifies this
      ensures Valid() && page == 1 && pageSize == old(pageSize)
    {
      page := 1;
    }

    /** Previous: one page back, never below 1. */
    method Previous()
      requires Valid()
      modifies this
      ensures Valid() && page == PreviousPage(old(page)) && pageSize == old(pageSize)
    {
      page := if page - 1 > 1 then page - 1 else 1;
    }

    /** Next: one page on, never past the last page. */
    method Next(filteredCount: nat)
      requires Valid()
      modifies this
      ensures Valid() && page == NextPage(old(page), TotalPages(filteredCount, pageSize))
      ensures pageSize == old(pageSize)
      ensures page <= TotalPages(filteredCount, pageSize)
    {
      var total := TotalPages(filteredCount, pageSize);
      page := if total < page + 1 then total else page + 1;
    }

    /** Last: the last page of the filtered list. */
    method Last(filteredCount: nat)
      requires Valid()
      modifies this
      ensures Valid() && page == TotalPages(filteredCount, pageSize) && pageSize == old(pageSize)
    {
      page := TotalPages(filteredCount, pageSize);
    }

    /** A page button of the window. */
    method GoTo(target: int, filteredCount: nat)
      requires Valid() && target in PageWindow(page, TotalPages(filteredCount, pageSize))
      modifies this
      ensures Valid() && page == target && pageSize == old(pageSize)
      ensures page <= TotalPages(filteredCount, pageSize)
    {
      PageWindowShape(page, TotalPages(filteredCount, pageSize));
      page := target;
    }
  }
}
