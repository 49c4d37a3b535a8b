/** Cursor pagination as the three listing services drive it. A backend
    listing is the finite sequence of pages a cursor walk visits, in
    cursor order; the `k`-th fetch of a walk returns page `k` (0-based). */
module Pagination {
  import opened Values

  /** One page of a listing: its nodes in order and its `pageInfo`. */
  datatype Page<T> = Page(items: seq<T>, endCursor: Option<string>, hasNextPage: bool)

  /** The page the `k`-th fetch returns. Past the last stored page the
      response has no edges and no `pageInfo`, which the services default
      to `[]`, `null` and `false`. */
  function PageAt<T>(pages: seq<Page<T>>, k: nat): (p: Page<T>)
    ensures k < |pages| ==> p == pages[k]
    ensures k >= |pages| ==> p.items == [] && p.endCursor.None? && !p.hasNextPage
  {
    if k < |pages| then pages[k] else Page([], None, false)
  }

  /** The same listing with every node passed through `f`. */
  function MapItems<A, B>(pages: seq<Page<A>>, f: A -> B): (r: seq<Page<B>>)
    ensures |r| == |pages|
    ensures forall k :: 0 <= k < |pages| ==>
      |r[k].items| == |pages[k].items| && r[k].endCursor == pages[k].endCursor && r[k].hasNextPage == pages[k].hasNextPage &&
      forall j :: 0 <= j < |pages[k].items| ==> r[k].items[j] == f(pages[k].items[j])
  {
    seq(|pages|, k requires 0 <= k < |pages| =>
      Page(seq(|pages[k].items|, j requires 0 <= j < |pages[k].items| => f(pages[k].items[j])),
           pages[k].endCursor, pages[k].hasNextPage))
  }

  /** What one fetch of a listing service returns: `{ data, total, endCursor, hasNextPage }`. */
  datatype PageData<T> = PageData(data: seq<T>, total: int, endCursor: Option<string>, hasNextPage: bool)

  /** The fetches of a walk to `target` that happen from fetch number
      `current` (1-based) on: the walk stops at the first page without a
      next page, or at the target. The result is the number of the last fetch. */
  function LastFetchFrom<T>(pages: seq<Page<T>>, current: nat, target: int): (n: nat)
    requires 1 <= current <= target
    ensures current <= n <= target
    ensures forall k :: current - 1 <= k < n - 1 ==> PageAt(pages, k).hasNextPage
    ensures n == target || !PageAt(pages, n - 1).hasNextPage
    decreases target - current
  {
    if !PageAt(pages, current - 1).hasNextPage || current == target then current
    else LastFetchFrom(pages, current + 1, target)
  }

  /** `actualPage` after a walk to `target`: the number of fetches made. */
  function FetchCount<T>(pages: seq<Page<T>>, target: int): (n: nat)
    ensures target < 1 ==> n == 0
    ensures target >= 1 ==> 1 <= n <= target
    ensures forall k :: 0 <= k < n - 1 ==> PageAt(pages, k).hasNextPage
    ensures n < target ==> !PageAt(pages, n - 1).hasNextPage
  {
    if target < 1 then 0 else LastFetchFrom(pages, 1, target)
  }

  /** The conditions in `FetchCount`'s contract pin the count down. */
  lemma {:induction false} FetchCountIs<T>(pages: seq<Page<T>>, target: int, n: nat)
    requires 1 <= n <= target
    requires forall k :: 0 <= k < n - 1 ==> PageAt(pages, k).hasNextPage
    requires n == target || !PageAt(pages, n - 1).hasNextPage
    ensures FetchCount(pages, target) == n
  {
  }

  /** The state `getPaginated*Page` returns: the last fetched page
      (`null` when nothing was fetched), its end cursor, the number of
      fetches and the last `hasNextPage`. */
  datatype Walk<T> = Walk(last: Option<PageData<T>>, afterCursor: Option<string>, actualPage: nat, hasNextPage: bool)

  /** The pagination loop: fetch pages 1, 2, ... up to `targetPage`, keep
      only the last one, and stop early at a page without a next page.
      Every fetch reports the same server `total`. */
  method Paginate<T>(pages: seq<Page<T>>, total: int, targetPage: int) returns (w: Walk<T>)
    ensures w.actualPage == FetchCount(pages, targetPage)
    ensures w.actualPage == 0 ==> w.last.None? && w.afterCursor.None? && !w.hasNextPage
    ensures w.actualPage > 0 ==>
      var p := PageAt(pages, w.actualPage - 1);
      w.last == Some(PageData(p.items, total, p.endCursor, p.hasNextPage)) &&
      w.afterCursor == p.endCursor && w.hasNextPage == p.hasNextPage
    ensures w.actualPage < targetPage ==> !w.hasNextPage
  {
    var afterCursor: Option<string> := None;
    var last: Option<PageData<T>> := None;
    var actualPage: nat := 0;
    var hasNextPage := false;
    var currentPage := 1;
    while currentPage <= targetPage
      invariant actualPage == currentPage - 1
      invariant targetPage >= 1 ==> currentPage <= targetPage + 1
      invariant actualPage == 0 || actualPage <= targetPage
      invariant forall k :: 0 <= k < actualPage ==> PageAt(pages, k).hasNextPage
      invariant actualPage == 0 ==> last.None? && afterCursor.None? && !hasNextPage
      invariant actualPage > 0 ==>
        var p := PageAt(pages, actualPage - 1);
        last == Some(PageData(p.items, total, p.endCursor, p.hasNextPage)) &&
        afterCursor == p.endCursor && hasNextPage == p.hasNextPage
      decreases targetPage - currentPage
    {
      var p := PageAt(pages, currentPage - 1);
      var data := PageData(p.items, total, p.endCursor, p.hasNextPage);
      last := Some(data);
      afterCursor := data.endCursor;
      hasNextPage := data.hasNextPage;
      actualPage := currentPage;
      if !data.hasNextPage {
        break;
      }
      currentPage := currentPage + 1;
    }
    if actualPage > 0 {
      FetchCountIs(pages, targetPage, actualPage);
    }
    w := Walk(last, afterCursor, actualPage, hasNextPage);
  }

  /** The listing a service returns: `{ <items>, total, hasNext, endCursor }`. */
  datatype ListResult<T> = ListResult(items: seq<T>, total: int, hasNext: bool, endCursor: Option<string>)

  /** The out-of-range rule: a walk that stopped before the requested page
      yields no items and no next page, and keeps `total` and the cursor. */
  function Settle<T, U>(items: seq<T>, total: int, w: Walk<U>, page: int): (l: ListResult<T>)
    ensures l.total == total && l.endCursor == w.afterCursor
    ensures w.actualPage < page ==> l.items == [] && !l.hasNext
    ensures w.actualPage >= page ==> l.items == items && l.hasNext == w.hasNextPage
  {
    if w.actualPage < page then ListResult([], total, false, w.afterCursor)
    else ListResult(items, total, w.hasNextPage, w.afterCursor)
  }

  /** Everything a full scan collects from page `k` on: the pages are
      concatenated until, and including, the first one without a next page. */
  function ScanFrom<T>(pages: seq<Page<T>>, k: nat): (all: seq<T>)
    decreases |pages| - k
  {
    if k >= |pages| then []
    else pages[k].items + (if pages[k].hasNextPage then ScanFrom(pages, k + 1) else [])
  }

  /** One step of a full scan: the page fetched, then the rest when it has a next page. */
  lemma ScanStep<T>(pages: seq<Page<T>>, k: nat)
    ensures ScanFrom(pages, k) == PageAt(pages, k).items + (if PageAt(pages, k).hasNextPage then ScanFrom(pages, k + 1) else [])
  {
    if k >= |pages| {
      assert PageAt(pages, k).items + [] == [];
    }
  }

  /** What a full scan has collected before page `k`, extended by page `k`. */
  lemma ScanAdvance<T>(pages: seq<Page<T>>, k: nat, all: seq<T>)
    requires all + ScanFrom(pages, k) == ScanFrom(pages, 0)
    ensures var p := PageAt(pages, k);
      (p.hasNextPage ==> k < |pages| && (all + p.items) + ScanFrom(pages, k + 1) == ScanFrom(pages, 0)) &&
      (!p.hasNextPage ==> all + p.items == ScanFrom(pages, 0))
  {
    var p := PageAt(pages, k);
    ScanStep(pages, k);
    if p.hasNextPage {
      assert all + (p.items + ScanFrom(pages, k + 1)) == (all + p.items) + ScanFrom(pages, k + 1);
    } else {
      assert p.items + [] == p.items;
    }
  }

  /** The loop of a full scan (`categoryTreeGet`): fetch page after page,
      concatenating their items, while the last one fetched has a next page. */
  method CollectAll<T>(pages: seq<Page<T>>) returns (all: seq<T>)
    ensures all == ScanFrom(pages, 0)
  {
    all := [];
    var k := 0;
    var hasNextPage := true;
    while hasNextPage
      invariant hasNextPage ==> k <= |pages| && all + ScanFrom(pages, k) == ScanFrom(pages, 0)
      invariant !hasNextPage ==> all == ScanFrom(pages, 0)
      decreases if hasNextPage then |pages| + 1 - k else 0
    {
      var data := PageAt(pages, k);
      ScanAdvance(pages, k, all);
      all := all + data.items;
      hasNextPage := data.hasNextPage;
      k := k + 1;
    }
  }

  /** The items of pages `0 .. k-1`, in order. */
  function ItemsBefore<T>(pages: seq<Page<T>>, k: nat): (s: seq<T>)
    decreases k
  {
    if k == 0 then [] else ItemsBefore(pages, k - 1) + PageAt(pages, k - 1).items
  }

  /** A full scan passes through every page a paginated walk can reach: when
      pages `0 .. k-1` all have a next page, the scan is their items
      followed by the scan from page `k`. */
  lemma {:induction false} ScanSplits<T>(pages: seq<Page<T>>, k: nat)
    requires forall j :: 0 <= j < k ==> PageAt(pages, j).hasNextPage
    ensures ScanFrom(pages, 0) == ItemsBefore(pages, k) + ScanFrom(pages, k)
    decreases k
  {
    if k > 0 {
      ScanSplits(pages, k - 1);
      assert PageAt(pages, k - 1).hasNextPage;
      assert k - 1 < |pages|;
    }
  }

  /** The page a walk to `target` ends on is a contiguous slice of the full
      scan, starting after the items of the pages before it. */
  lemma WalkPageInScan<T>(pages: seq<Page<T>>, target: int)
    requires target >= 1
    ensures var n := FetchCount(pages, target); var before := ItemsBefore(pages, n - 1);
      var items := PageAt(pages, n - 1).items;
      |before| + |items| <= |ScanFrom(pages, 0)| &&
      ScanFrom(pages, 0)[|before|..|before| + |items|] == items
  {
    var n := FetchCount(pages, target);
    PageInScan(pages, n - 1);
  }

  /** Page `k` of a scan whose earlier pages all have a next page sits in
      the scan right after their items. */
  lemma PageInScan<T>(pages: seq<Page<T>>, k: nat)
    requires forall j :: 0 <= j < k ==> PageAt(pages, j).hasNextPage
    ensures var before := ItemsBefore(pages, k); var items := PageAt(pages, k).items;
      |before| + |items| <= |ScanFrom(pages, 0)| &&
      ScanFrom(pages, 0)[|before|..|before| + |items|] == items
  {
    ScanSplits(pages, k);
    ScanStep(pages, k);
    var p := PageAt(pages, k);
    var rest := if p.hasNextPage then ScanFrom(pages, k + 1) else [];
    assert ScanFrom(pages, 0) == ItemsBefore(pages, k) + (p.items + rest);
    SliceMiddle(ItemsBefore(pages, k), p.items, rest);
  }

  /** The middle part of a concatenation is a slice of it. */
  lemma SliceMiddle<T>(a: seq<T>, b: seq<T>, c: seq<T>)
    ensures |a| + |b| <= |a + (b + c)| && (a + (b + c))[|a|..|a| + |b|] == b
  {
    assert (a + (b + c))[|a|..] == b + c;
    assert (b + c)[..|b|] == b;
  }
}
