/** The windowed pagination cache of `TableDataSource`: page mapping, the
    range-to-pages resolver, the per-page fetch-and-apply step and the
    windowed publisher. The pure definitions below specify the behaviour;
    the class `TableDataSource` holds the state the source mutates and its
    methods are proved against those definitions. */
module TableData {
  import opened Wrappers
  import opened JsArray

  /** The page size the data source divides by; the source's default is 50. */
  type PageSize = n: int | 0 < n witness 1

  /** A `ListRange` as the viewport reports it and as `setRenderedRange` takes it. */
  datatype RenderRange = RenderRange(start: int, end: int)

  /** `IPaginationResult<T>`: the data of one page and the total the server reports. */
  datatype PaginationResult<T> = PaginationResult(data: seq<T>, total: int)

  /** One bound of the range the publisher combines with the data. The range
      the publisher starts with is the empty object `{}`, whose bounds are
      `undefined`, which is not `null`; a viewport range has numeric bounds. */
  datatype Bound = Undefined | Null | At(n: int)

  /** The cache's state together with what it has done to the outside world:
      the pages it asked the fetch function for and the ranges it commanded
      the viewport to render, in order. */
  datatype PageCache<T> = PageCache(
    data: seq<T>,
    pageCache: set<int>,
    total: int,
    fetches: seq<int>,
    commands: seq<RenderRange>)

  predicate StrictlyAscending(s: seq<int>)
  {
    forall i, j :: 0 <= i < j < |s| ==> s[i] < s[j]
  }

  // ---------------------------------------------------------------------
  // Page mapping

  /** `_getPageForIndex`: the page holding `index`, `Math.floor(index / pageSize)`. */
  function PageForIndex(index: int, pageSize: PageSize): (page: int)
    ensures page * pageSize <= index < page * pageSize + pageSize
  {
    index / pageSize
  }

  /** The page of an index is the only page whose slots contain it. */
  lemma PageForIndexUnique(index: int, pageSize: PageSize, page: int)
    requires page * pageSize <= index < page * pageSize + pageSize
    ensures PageForIndex(index, pageSize) == page
  {
    var q := PageForIndex(index, pageSize);
    if q < page {
      MulMonotone(q + 1, page, pageSize);
    } else if page < q {
      MulMonotone(page + 1, q, pageSize);
    }
  }

  lemma PageForIndexMonotone(i: int, j: int, pageSize: PageSize)
    requires i <= j
    ensures PageForIndex(i, pageSize) <= PageForIndex(j, pageSize)
  {
    var p, q := PageForIndex(i, pageSize), PageForIndex(j, pageSize);
    if q < p {
      MulMonotone(q + 1, p, pageSize);
    }
  }

  lemma MulSucc(k: int, c: int)
    ensures (k + 1) * c == k * c + c
  {
  }

  lemma MulMonotone(a: int, b: int, c: nat)
    requires a <= b
    ensures a * c <= b * c
  {
  }

  // ---------------------------------------------------------------------
  // Range-to-pages resolver

  /** The pages `lo..hi` that are not cached, in ascending order: the list the
      resolver's loop pushes to. */
  function PagesIn(lo: int, hi: int, cache: set<int>): seq<int>
    decreases hi - lo
  {
    if hi < lo then [] else PagesIn(lo, hi - 1, cache) + (if hi in cache then [] else [hi])
  }

  lemma {:induction false} PagesInSpec(lo: int, hi: int, cache: set<int>)
    ensures StrictlyAscending(PagesIn(lo, hi, cache))
    ensures forall p :: p in PagesIn(lo, hi, cache) <==> lo <= p <= hi && p !in cache
    decreases hi - lo
  {
    if lo <= hi {
      PagesInSpec(lo, hi - 1, cache);
      var prev := PagesIn(lo, hi - 1, cache);
      assert forall i :: 0 <= i < |prev| ==> prev[i] in prev;
    }
  }

  /** `_getPagesToFetch`: from the page of the range's start to the page one
      full page past its end, but no further than the page of the total. */
  function Resolve(range: RenderRange, total: int, pageSize: PageSize, cache: set<int>): seq<int>
  {
    var firstPage := PageForIndex(range.start, pageSize);
    var lastPage := PageForIndex(range.end + pageSize, pageSize);
    var maxPage := PageForIndex(total, pageSize);
    PagesIn(firstPage, Min(lastPage, maxPage), cache)
  }

  /** Resolver coverage: the output is strictly ascending (so it has no
      duplicates) and holds exactly the uncached pages between the range's
      first page and the overscanned last page, capped by the total's page. */
  lemma ResolveSpec(range: RenderRange, total: int, pageSize: PageSize, cache: set<int>)
    ensures StrictlyAscending(Resolve(range, total, pageSize, cache))
    ensures forall p :: p in Resolve(range, total, pageSize, cache) <==>
      && range.start / pageSize <= p
      && p <= (range.end + pageSize) / pageSize
      && p <= total / pageSize
      && p !in cache
  {
    var lastPage := PageForIndex(range.end + pageSize, pageSize);
    var maxPage := PageForIndex(total, pageSize);
    PagesInSpec(PageForIndex(range.start, pageSize), Min(lastPage, maxPage), cache);
  }

  /** Before the first fetch the total is 0: for a viewport range (non-negative
      bounds) the resolver emits page 0 alone, and only when the range starts
      inside page 0 and page 0 is not cached. */
  lemma Bootstrap(range: RenderRange, pageSize: PageSize, cache: set<int>)
    requires 0 <= range.start && 0 <= range.end
    ensures Resolve(range, 0, pageSize, cache) == if range.start < pageSize && 0 !in cache then [0] else []
  {
    var firstPage := PageForIndex(range.start, pageSize);
    var lastPage := PageForIndex(range.end + pageSize, pageSize);
    assert PageForIndex(0, pageSize) == 0 by { PageForIndexUnique(0, pageSize, 0); }
    PageForIndexMonotone(pageSize, range.end + pageSize, pageSize);
    assert PageForIndex(pageSize, pageSize) == 1 by { PageForIndexUnique(pageSize, pageSize, 1); }
    PageForIndexMonotone(0, range.start, pageSize);
    if range.start < pageSize {
      PageForIndexUnique(range.start, pageSize, 0);
      assert PagesIn(0, 0, cache) == PagesIn(0, -1, cache) + (if 0 in cache then [] else [0]);
    } else {
      PageForIndexMonotone(pageSize, range.start, pageSize);
    }
  }

  // ---------------------------------------------------------------------
  // Per-page fetch-and-apply step

  /** `_fetchAndUpdate(page)` with the fetch completing: a cached page is
      filtered out; otherwise the page is fetched, a differing total replaces
      the stored one and makes the viewport re-render `{0, page of total}`,
      the page is marked cached and its data is spliced into a copy of the
      backing array at `page * pageSize`, replacing `pageSize` slots. */
  function ApplyPage<T>(s: PageCache<T>, page: int, pageSize: PageSize,
                        fetchPage: (int, int) -> PaginationResult<T>): PageCache<T>
  {
    if page in s.pageCache then s
    else
      var result := fetchPage(page, pageSize);
      var fetched := s.(fetches := s.fetches + [page]);
      var retotaled :=
        if fetched.total != result.total then
          fetched.(total := result.total,
                   commands := fetched.commands + [RenderRange(0, PageForIndex(result.total, pageSize))])
        else fetched;
      retotaled.(pageCache := retotaled.pageCache + {page},
                 data := Splice(retotaled.data, page * pageSize, pageSize, result.data))
  }

  /** The step on a page that is already cached does nothing at all: no fetch,
      no total change, no range command, the same backing array. */
  lemma CachedPageIsNoOp<T>(s: PageCache<T>, page: int, pageSize: PageSize,
                            fetchPage: (int, int) -> PaginationResult<T>)
    requires page in s.pageCache
    ensures ApplyPage(s, page, pageSize, fetchPage) == s
  {
  }

  /** Fetching the same page twice in a row applies it once: the second step
      issues no fetch and changes nothing. */
  lemma FetchIsIdempotent<T>(s: PageCache<T>, page: int, pageSize: PageSize,
                             fetchPage: (int, int) -> PaginationResult<T>)
    ensures var once := ApplyPage(s, page, pageSize, fetchPage);
      ApplyPage(once, page, pageSize, fetchPage) == once
  {
  }

  /** What one step does to the cache, the fetch log, the total and the
      viewport commands. The cache only ever grows. */
  lemma ApplyPageEffects<T>(s: PageCache<T>, page: int, pageSize: PageSize,
                            fetchPage: (int, int) -> PaginationResult<T>)
    ensures var r := ApplyPage(s, page, pageSize, fetchPage);
      var result := fetchPage(page, pageSize);
      && r.pageCache == s.pageCache + {page}
      && r.fetches == s.fetches + (if page in s.pageCache then [] else [page])
      && (page !in s.pageCache && result.total != s.total ==>
            r.total == result.total
            && r.commands == s.commands + [RenderRange(0, result.total / pageSize)])
      && (page in s.pageCache || result.total == s.total ==>
            r.total == s.total && r.commands == s.commands)
  {
  }

  /** Splicing a page inside the backing array: the slots before it are kept,
      the page's data lands at `page * pageSize`, the slots after the page's
      `pageSize` slots follow, and a short page shrinks the array. */
  lemma SpliceInside<T>(s: PageCache<T>, page: int, pageSize: PageSize,
                        fetchPage: (int, int) -> PaginationResult<T>)
    requires page !in s.pageCache && 0 <= page
    requires page * pageSize + pageSize <= |s.data|
    ensures var r := ApplyPage(s, page, pageSize, fetchPage);
      var d := fetchPage(page, pageSize).data;
      var at := page * pageSize;
      && |r.data| == |s.data| - pageSize + |d|
      && r.data[..at] == s.data[..at]
      && r.data[at..at + |d|] == d
      && r.data[at + |d|..] == s.data[at + pageSize..]
  {
  }

  /** A page whose offset lies at or past the end of the backing array is
      appended at the end, not placed at its offset. */
  lemma SplicePastEnd<T>(s: PageCache<T>, page: int, pageSize: PageSize,
                         fetchPage: (int, int) -> PaginationResult<T>)
    requires page !in s.pageCache && 0 <= page
    requires |s.data| <= page * pageSize
    ensures ApplyPage(s, page, pageSize, fetchPage).data == s.data + fetchPage(page, pageSize).data
  {
    var r := ApplyPage(s, page, pageSize, fetchPage);
    var d := fetchPage(page, pageSize).data;
    assert r.data == s.data[..|s.data|] + d + s.data[|s.data|..];
  }

  // ---------------------------------------------------------------------
  // One range event: the resolved pages, applied in order

  function ApplyBatch<T>(s: PageCache<T>, pages: seq<int>, pageSize: PageSize,
                         fetchPage: (int, int) -> PaginationResult<T>): PageCache<T>
    decreases |pages|
  {
    if pages == [] then s
    else ApplyBatch(ApplyPage(s, pages[0], pageSize, fetchPage), pages[1..], pageSize, fetchPage)
  }

  /** A batch is its first page's step followed by the rest of the batch. */
  lemma BatchCons<T>(s: PageCache<T>, pages: seq<int>, pageSize: PageSize,
                     fetchPage: (int, int) -> PaginationResult<T>)
    requires pages != []
    ensures ApplyBatch(s, pages, pageSize, fetchPage) ==
      ApplyBatch(ApplyPage(s, pages[0], pageSize, fetchPage), pages[1..], pageSize, fetchPage)
  {
  }

  /** A batch adds exactly its pages to the cache. */
  lemma {:induction false} BatchGrowsCache<T>(s: PageCache<T>, pages: seq<int>, pageSize: PageSize,
                                              fetchPage: (int, int) -> PaginationResult<T>)
    ensures ApplyBatch(s, pages, pageSize, fetchPage).pageCache == s.pageCache + set p | p in pages
    decreases |pages|
  {
    if pages != [] {
      BatchGrowsCache(ApplyPage(s, pages[0], pageSize, fetchPage), pages[1..], pageSize, fetchPage);
      assert (set p | p in pages) == {pages[0]} + set p | p in pages[1..];
    }
  }

  /** A batch of distinct, uncached pages in ascending order fetches each of
      them exactly once, in that order. */
  lemma {:induction false} BatchFetchesInOrder<T>(s: PageCache<T>, pages: seq<int>, pageSize: PageSize,
                                                  fetchPage: (int, int) -> PaginationResult<T>)
    requires StrictlyAscending(pages)
    requires forall p :: p in pages ==> p !in s.pageCache
    ensures ApplyBatch(s, pages, pageSize, fetchPage).fetches == s.fetches + pages
    decreases |pages|
  {
    if pages != [] {
      var s1 := ApplyPage(s, pages[0], pageSize, fetchPage);
      ApplyPageEffects(s, pages[0], pageSize, fetchPage);
      var rest := pages[1..];
      assert StrictlyAscending(rest);
      forall j | 0 <= j < |rest| ensures rest[j] !in s1.pageCache {
        assert rest[j] == pages[j + 1] && pages[0] < pages[j + 1];
        assert pages[j + 1] in pages;
      }
      BatchCons(s, pages, pageSize, fetchPage);
      BatchFetchesInOrder(s1, rest, pageSize, fetchPage);
      assert pages == [pages[0]] + rest;
    }
  }

  /** The pages `k .. n-1`, in ascending order. */
  function Interval(k: int, n: int): seq<int>
    decreases n - k
  {
    if n <= k then [] else [k] + Interval(k + 1, n)
  }

  /** The data the fetch function returns for the pages `k .. n-1`, concatenated. */
  function FetchedData<T>(k: int, n: int, pageSize: PageSize,
                          fetchPage: (int, int) -> PaginationResult<T>): seq<T>
    decreases n - k
  {
    if n <= k then [] else fetchPage(k, pageSize).data + FetchedData(k + 1, n, pageSize, fetchPage)
  }

  /** One step of a consecutive load: the page is appended and cached. */
  lemma AppendStep<T>(s: PageCache<T>, k: int, pageSize: PageSize,
                      fetchPage: (int, int) -> PaginationResult<T>)
    requires 0 <= k && |s.data| == k * pageSize && k !in s.pageCache
    ensures var r := ApplyPage(s, k, pageSize, fetchPage);
      && r.data == s.data + fetchPage(k, pageSize).data
      && |r.data| == k * pageSize + |fetchPage(k, pageSize).data|
      && r.pageCache == s.pageCache + {k}
  {
    SplicePastEnd(s, k, pageSize, fetchPage);
  }

  /** A batch over `k .. n-1` is page `k`'s step followed by the batch over `k+1 .. n-1`. */
  lemma IntervalBatchCons<T>(s: PageCache<T>, k: int, n: int, pageSize: PageSize,
                             fetchPage: (int, int) -> PaginationResult<T>)
    requires k < n
    ensures ApplyBatch(s, Interval(k, n), pageSize, fetchPage) ==
      ApplyBatch(ApplyPage(s, k, pageSize, fetchPage), Interval(k + 1, n), pageSize, fetchPage)
  {
    assert Interval(k, n)[0] == k && Interval(k, n)[1..] == Interval(k + 1, n);
    BatchCons(s, Interval(k, n), pageSize, fetchPage);
  }

  /** The inductive step of `LoadConsecutive`: page `k` is appended, then
      the rest of the batch appends the rest of the data. */
  lemma LoadStep<T>(s: PageCache<T>, k: int, n: int, pageSize: PageSize,
                    fetchPage: (int, int) -> PaginationResult<T>)
    requires 0 <= k < n && |s.data| == k * pageSize && k !in s.pageCache
    requires var s1 := ApplyPage(s, k, pageSize, fetchPage);
      ApplyBatch(s1, Interval(k + 1, n), pageSize, fetchPage).data ==
      s1.data + FetchedData(k + 1, n, pageSize, fetchPage)
    ensures ApplyBatch(s, Interval(k, n), pageSize, fetchPage).data == s.data + FetchedData(k, n, pageSize, fetchPage)
  {
    var d := fetchPage(k, pageSize).data;
    var rest := FetchedData(k + 1, n, pageSize, fetchPage);
    AppendStep(s, k, pageSize, fetchPage);
    IntervalBatchCons(s, k, n, pageSize, fetchPage);
    assert (s.data + d) + rest == s.data + (d + rest);
  }

  /** Loading the pages `k .. n-1` in order onto an array that ends where
      page `k` begins, each page but the last being full, appends their data
      one after the other. */
  lemma {:induction false} LoadConsecutive<T>(s: PageCache<T>, k: int, n: int, pageSize: PageSize,
                                              fetchPage: (int, int) -> PaginationResult<T>)
    requires 0 <= k && |s.data| == k * pageSize
    requires forall p :: k <= p < n ==> p !in s.pageCache
    requires forall p :: k <= p < n - 1 ==> |fetchPage(p, pageSize).data| == pageSize
    ensures ApplyBatch(s, Interval(k, n), pageSize, fetchPage).data == s.data + FetchedData(k, n, pageSize, fetchPage)
    decreases n - k
  {
    if k < n {
      var s1 := ApplyPage(s, k, pageSize, fetchPage);
      AppendStep(s, k, pageSize, fetchPage);
      if k + 1 < n {
        MulSucc(k, pageSize);
        LoadConsecutive(s1, k + 1, n, pageSize, fetchPage);
      } else {
        assert Interval(k + 1, n) == [] && FetchedData(k + 1, n, pageSize, fetchPage) == [];
      }
      LoadStep(s, k, n, pageSize, fetchPage);
    }
  }

  // ---------------------------------------------------------------------
  // Windowed publisher

  /** The index `slice` takes for a start bound: `undefined` becomes 0. */
  function StartIndex(b: Bound): int
  {
    match b
    case At(n) => n
    case _ => 0
  }

  /** The index `slice` takes for an end bound: `undefined` means the length. */
  function EndIndex(b: Bound, len: nat): int
  {
    match b
    case At(n) => n
    case _ => len
  }

  /** The rendered data: the whole array when no viewport was attached at
      connect time or a bound is `null`, otherwise `data.slice(start, end)`. */
  function Publish<T>(data: seq<T>, windowed: bool, start: Bound, end: Bound): (r: seq<T>)
    ensures |r| <= |data|
  {
    if !windowed || start.Null? || end.Null? then data
    else Slice(data, StartIndex(start), EndIndex(end, |data|))
  }

  /** The whole array is published without a viewport, with a `null` bound,
      and for the initial `{}` range whose bounds are `undefined`. */
  lemma PublishWhole<T>(data: seq<T>, windowed: bool, start: Bound, end: Bound)
    requires !windowed || start.Null? || end.Null? || (start.Undefined? && end.Undefined?)
    ensures Publish(data, windowed, start, end) == data
  {
  }

  /** With a viewport range the publisher shows the clamped window
      `[start, end)` of the array, and nothing when `start >= end`. */
  lemma PublishWindow<T>(data: seq<T>, start: nat, end: nat)
    ensures Publish(data, true, At(start), At(end)) ==
      if start < end && start < |data| then data[start..Min(end, |data|)] else []
  {
  }

  // ---------------------------------------------------------------------
  // The data source object

  class TableDataSource<T> {
    /** The page fetch function the source is constructed with. */
    const fetchPage: (int, int) -> PaginationResult<T>
    const pageSize: PageSize
    /** The backing array, `matTableDataSource.data`. */
    var data: seq<T>
    var pageCache: set<int>
    var total: int
    /** `_viewPort` is defined. */
    var viewPortAttached: bool
    /** The fetch pipeline on the viewport's range stream is subscribed. */
    var subscribed: bool
    /** `connect()` has been called ... */
    var connected: bool
    /** ... and found a viewport, so what it publishes is windowed by range. */
    var windowed: bool
    /** The latest range the publisher has combined with the data; `None` is the initial `{}`. */
    var lastRange: Option<RenderRange>
    /** Pages passed to the fetch function, in call order. */
    ghost var fetches: seq<int>
    /** Ranges passed to the viewport's `setRenderedRange`, in call order. */
    ghost var commands: seq<RenderRange>

    ghost predicate Valid()
      reads this
    {
      subscribed ==> viewPortAttached
    }

    ghost function Cache(): PageCache<T>
      reads this
    {
      PageCache(data, pageCache, total, fetches, commands)
    }

    /** What the data source hands the table: nothing before `connect()`,
        then the publisher's view of the backing array. */
    function Rendered(): seq<T>
      reads this
    {
      if !connected then []
      else match lastRange
        case None => Publish(data, windowed, Undefined, Undefined)
        case Some(r) => Publish(data, windowed, At(r.start), At(r.end))
    }

    constructor (fetchPage: (int, int) -> PaginationResult<T>, pageSize: PageSize := 50)
      ensures Valid()
      ensures this.fetchPage == fetchPage && this.pageSize == pageSize
      ensures Cache() == PageCache([], {}, 0, [], [])
      ensures !viewPortAttached && !subscribed && !connected && lastRange == None
    {
      this.fetchPage := fetchPage;
      this.pageSize := pageSize;
      data, pageCache, total := [], {}, 0;
      viewPortAttached, subscribed, connected, windowed := false, false, false, false;
      lastRange := None;
      fetches, commands := [], [];
    }

    /** `attach(viewPort)`: a missing viewport throws before anything changes;
        otherwise the viewport is kept, the fetch pipeline subscribed, and the
        viewport told to render `{0, 1}` so that the first page loads. */
    method Attach(viewPortDefined: bool) returns (r: Outcome<string>)
      requires Valid()
      modifies this
      ensures Valid()
      ensures !viewPortDefined ==> r == Fail("ViewPort is not defined") && unchanged(this)
      ensures viewPortDefined ==>
        && r == Pass && viewPortAttached && subscribed
        && commands == old(commands) + [RenderRange(0, 1)]
        && data == old(data) && pageCache == old(pageCache) && total == old(total)
        && fetches == old(fetches)
        && connected == old(connected) && windowed == old(windowed) && lastRange == old(lastRange)
    {
      if !viewPortDefined {
        return Fail("ViewPort is not defined");
      }
      viewPortAttached := true;
      subscribed := true;
      commands := commands + [RenderRange(0, 1)];
      r := Pass;
    }

    /** `connect()`: the published stream is windowed exactly when a viewport
        is attached at this moment, and it starts from the `{}` range. */
    method Connect()
      requires Valid()
      modifies this
      ensures Valid()
      ensures connected && windowed == viewPortAttached && lastRange == None
      ensures Rendered() == data
      ensures Cache() == old(Cache())
      ensures viewPortAttached == old(viewPortAttached) && subscribed == old(subscribed)
    {
      connected := true;
      windowed := viewPortAttached;
      lastRange := None;
    }

    /** `disconnect()`: unsubscribes the fetch pipeline only. */
    method Disconnect()
      requires Valid()
      modifies this
      ensures Valid()
      ensures !subscribed
      ensures Cache() == old(Cache())
      ensures viewPortAttached == old(viewPortAttached) && connected == old(connected)
      ensures windowed == old(windowed) && lastRange == old(lastRange)
    {
      subscribed := false;
    }

    /** `_getPagesToFetch(range)`. */
    method GetPagesToFetch(range: RenderRange) returns (pages: seq<int>)
      ensures pages == Resolve(range, total, pageSize, pageCache)
    {
      var firstPage := PageForIndex(range.start, pageSize);
      var lastPage := PageForIndex(range.end + pageSize, pageSize);
      var maxPage := PageForIndex(total, pageSize);
      pages := [];
      var i := firstPage;
      while i <= lastPage && i <= maxPage
        invariant firstPage <= i
        invariant i <= Min(lastPage, maxPage) + 1 || i == firstPage
        invariant pages == PagesIn(firstPage, i - 1, pageCache)
        decreases Min(lastPage, maxPage) - i
      {
        if i !in pageCache {
          pages := pages + [i];
        }
        i := i + 1;
      }
    }

    /** `_fetchAndUpdate(page)`, the fetch completing. It is only reached
        through the pipeline `attach` subscribes, so a viewport is attached. */
    method FetchAndUpdate(page: int)
      requires Valid() && viewPortAttached
      modifies this
      ensures Valid()
      ensures Cache() == ApplyPage(old(Cache()), page, pageSize, fetchPage)
      ensures viewPortAttached == old(viewPortAttached) && subscribed == old(subscribed)
      ensures connected == old(connected) && windowed == old(windowed) && lastRange == old(lastRange)
    {
      if page in pageCache {
        return;
      }
      var result := fetchPage(page, pageSize);
      fetches := fetches + [page];
      if total != result.total {
        total := result.total;
        commands := commands + [RenderRange(0, PageForIndex(total, pageSize))];
      }
      pageCache := pageCache + {page};
      var newData := data;
      newData := Splice(newData, page * pageSize, pageSize, result.data);
      data := newData;
    }

    /** The viewport reports a new rendered range: the publisher takes it as
        its latest range, and a subscribed fetch pipeline resolves the range
        and applies each resolved page in ascending order. */
    method OnRenderedRange(range: RenderRange)
      requires Valid()
      modifies this
      ensures Valid()
      ensures lastRange == Some(range)
      ensures connected && windowed ==> Rendered() == Slice(data, range.start, range.end)
      ensures connected && !windowed ==> Rendered() == data
      ensures Cache() ==
        if old(subscribed)
        then ApplyBatch(old(Cache()), Resolve(range, old(total), pageSize, old(pageCache)), pageSize, fetchPage)
        else old(Cache())
      ensures viewPortAttached == old(viewPortAttached) && subscribed == old(subscribed)
      ensures connected == old(connected) && windowed == old(windowed)
    {
      lastRange := Some(range);
      if !subscribed {
        return;
      }
      var pages := GetPagesToFetch(range);
      var i := 0;
      while i < |pages|
        invariant 0 <= i <= |pages|
        invariant Valid() && viewPortAttached
        invariant ApplyBatch(Cache(), pages[i..], pageSize, fetchPage) ==
                  ApplyBatch(old(Cache()), pages, pageSize, fetchPage)
        invariant lastRange == Some(range)
        invariant viewPortAttached == old(viewPortAttached) && subscribed == old(subscribed)
        invariant connected == old(connected) && windowed == old(windowed)
      {
        FetchAndUpdate(pages[i]);
        assert pages[i..][1..] == pages[i + 1..];
        i := i + 1;
      }
    }
  }
}
