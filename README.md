# Windowed pagination cache for a virtual-scroll table

This project models the core of an Angular demo. A Material table is rendered
inside a CDK virtual-scroll viewport, and its rows come from a paging back end.

- **`TableDataSource<T>`** (module `TableData`):
  - keeps a backing array and the set of pages already fetched;
  - turns each range the viewport reports into the pages still missing;
  - fetches them one at a time, splicing each page into the array at
    `page * pageSize`;
  - re-commands the viewport's range when the server reports a new total;
  - publishes the slice of the array the viewport currently shows.
- **The `appTable` directive** (module `InfiniteTable`) keeps the sticky header
  cells at the top of the rendered window. It merges a range-derived offset
  (`start * -itemSize`) with a scroll-derived one (`-offsetToRenderedContentStart`).
  Adjacent duplicates of the scroll-derived offset are suppressed.
- **The demo component** (module `MyTable`):
  - builds the 42-item `PAGES` fixture from ten periodic-table rows;
  - constructs the data source with a mock fetch and a page size of 10;
  - toggles the expanded row.
- **`JsArray`** spells out the ECMAScript `slice` and `splice` clamping rules the
  source relies on.

The pure definitions specify one step or one pass:
- `PageForIndex`, `Resolve`, `ApplyPage`, `ApplyBatch` and `Publish` in `TableData`;
- `Sample` and `Run` in `InfiniteTable`;
- `PageOf`, `Pages` and `MockFetch` in `MyTable`.

The classes hold the fields the source mutates, and their methods are proved against
those definitions. The calls the data source makes to the fetch function and to the
viewport's `setRenderedRange` are recorded, in order, in ghost logs (`fetches`,
`commands`). The header-cell `top` styles are an array the directive writes.

Two consequences of what the code does:

- The backing array is dense, not sparse: the page is spliced into a copy of the
  array, and `splice` clamps its start to the array's length. A page
  whose offset lies past the end is therefore appended at the end (`SplicePastEnd`,
  `JumpAheadLandsAtEnd`). A short last page shrinks the array instead of leaving
  holes (`SpliceInside`).
- The range commanded after a total change is `{start: 0, end: floor(total / pageSize)}`.
  Its end is a page number, used as a row index.

## Model

| member | source | states |
|---|---|---|
| TableData.PageForIndex | src/app/model/table-data-source.ts:86-88 | the page of an index is the floor of index / pageSize: `page * pageSize <= index < page * pageSize + pageSize` |
| TableData.PageForIndexUnique | src/app/model/table-data-source.ts:86-88 | the page whose slots contain an index is the page that index maps to |
| TableData.PageForIndexMonotone | src/app/model/table-data-source.ts:86-88 | the page mapping is monotone in the index |
| TableData.PagesInSpec | src/app/model/table-data-source.ts:77-82 | the loop's pushed list is strictly ascending and holds exactly the uncached pages of `lo..hi` |
| TableData.Resolve | src/app/model/table-data-source.ts:74-84 | the resolver: the uncached pages from the range's first page to the overscanned last page, capped by the total's page; its properties are stated by `TableData.ResolveSpec` and `TableData.Bootstrap` |
| TableData.ResolveSpec | src/app/model/table-data-source.ts:74-84 | the resolver's output has no duplicates (strictly ascending); `p` is in it iff `floor(start/ps) <= p <= floor((end+ps)/ps)`, `p <= floor(total/ps)` and `p` is uncached |
| TableData.Bootstrap | src/app/model/table-data-source.ts:74-84 | with total 0, a non-negative range resolves to `[0]` iff it starts inside page 0 and page 0 is uncached, and to `[]` otherwise |
| TableData.TableDataSource.GetPagesToFetch | src/app/model/table-data-source.ts:74-84 | the `for` loop returns exactly the resolver's page list for the current total and cache |
| TableData.ApplyPage | src/app/model/table-data-source.ts:100-118 | one fetch-and-update step on the cache state; what it does is stated by `TableData.CachedPageIsNoOp`, `TableData.ApplyPageEffects`, `TableData.SpliceInside` and `TableData.SplicePastEnd` |
| TableData.CachedPageIsNoOp | src/app/model/table-data-source.ts:100-102 | fetch-and-update of a cached page changes nothing: no fetch, no total, no range command, same array |
| TableData.FetchIsIdempotent | src/app/model/table-data-source.ts:100-111 | applying the same page twice is the same as applying it once |
| TableData.ApplyPageEffects | src/app/model/table-data-source.ts:104-111 | the cache becomes old ∪ {page} and never shrinks; the fetch log grows by the page iff it was uncached; a differing total is stored and logs exactly one `{0, floor(total/ps)}` command, otherwise total and commands are unchanged |
| TableData.SpliceInside | src/app/model/table-data-source.ts:112-116 | inside the array the page's data replaces its `pageSize` slots: prefix kept, data at `page*ps`, suffix after the page kept, length `old - ps + |data|` |
| TableData.SplicePastEnd | src/app/model/table-data-source.ts:112-116 | when the page's offset is at or past the end of the array, the data is appended at the end |
| TableData.TableDataSource.FetchAndUpdate | src/app/model/table-data-source.ts:100-118 | the new cache, total, array and logs are those of one `ApplyPage` step on the old state; viewport and connection state unchanged |
| TableData.ApplyBatch | src/app/model/table-data-source.ts:64-72 | the steps for a range event's pages, applied in order; stated by `TableData.BatchGrowsCache`, `TableData.BatchFetchesInOrder` and `TableData.LoadConsecutive` |
| TableData.BatchGrowsCache | src/app/model/table-data-source.ts:64-72 | a batch adds exactly its pages to the cache |
| TableData.BatchFetchesInOrder | src/app/model/table-data-source.ts:64-72 | a strictly ascending batch of uncached pages fetches each page exactly once, in order |
| TableData.LoadConsecutive | src/app/model/table-data-source.ts:112-116 | pages `k..n-1` loaded in order onto an array ending where page `k` starts (full pages but the last) append their data one after another |
| TableData.TableDataSource.OnRenderedRange | src/app/model/table-data-source.ts:64-72 | a range event becomes the publisher's latest range, so a windowed output renders `data.slice(start, end)` and an unwindowed one the whole array; when subscribed, the new state is the batch of the resolver's pages applied in ascending order, otherwise the cache is untouched |
| TableData.Publish | src/app/model/table-data-source.ts:90-98 | what the publisher emits for the latest range is never longer than the backing array |
| TableData.TableDataSource.Rendered | src/app/model/table-data-source.ts:49-58 | the array handed to the table: the publisher's view of the backing array after `connect`; `Connect` and `OnRenderedRange` state its value |
| TableData.PublishWhole | src/app/model/table-data-source.ts:90-98 | the whole array is published when no viewport was attached at connect, a bound is `null`, or the range is the initial `{}` |
| TableData.PublishWindow | src/app/model/table-data-source.ts:90-98 | with numeric bounds the clamped window `data[start..min(end,len)]` is published, empty when `start >= end` or `start >= len` |
| TableData.TableDataSource.constructor | src/app/model/table-data-source.ts:9-32 | empty array, empty cache, total 0, default page size 50, nothing attached or connected |
| TableData.TableDataSource.Attach | src/app/model/table-data-source.ts:34-46 | a missing viewport fails with "ViewPort is not defined" and changes nothing; otherwise the viewport is attached, the fetch pipeline subscribed and exactly `{0, 1}` is commanded |
| TableData.TableDataSource.Connect | src/app/model/table-data-source.ts:49-58 | the output is windowed iff a viewport is attached at connect time and starts from the `{}` range, so the whole array is rendered; the cache is unchanged |
| TableData.TableDataSource.Disconnect | src/app/model/table-data-source.ts:60-62 | unsubscribes the fetch pipeline and changes nothing else |
| JsArray.RelativeIndex | src/app/model/table-data-source.ts:94 | a relative index is clamped into `[0, len]` and equals `min(index, len)` for non-negative indices |
| JsArray.Slice | src/app/model/table-data-source.ts:94 | `slice` yields the clamped window: its length and its elements `a[start + k]`, empty when `end <= start` |
| JsArray.Splice | src/app/model/table-data-source.ts:113-115 | `splice` keeps the prefix up to the clamped start, inserts the items there, and keeps the rest after the clamped deleted run |
| InfiniteTable.InfiniteTableDirective.constructor | src/app/directives/infinite-table.directive.ts:11-25 | inputs bound as given, one unwritten `top` per header cell, nothing initialised or installed |
| InfiniteTable.InfiniteTableDirective.NgOnInit | src/app/directives/infinite-table.directive.ts:27-34 | fails and sets `invalidInput` iff the data source is missing or the item size is missing or zero; otherwise attaches the data source, which subscribes and commands `{0, 1}`, with its array, cache, total, fetch log and publisher state unchanged |
| InfiniteTable.InfiniteTableDirective.NgAfterContentInit | src/app/directives/infinite-table.directive.ts:36-51 | installs the merged offset subscription iff the inputs were valid |
| InfiniteTable.InfiniteTableDirective.NgOnDestroy | src/app/directives/infinite-table.directive.ts:53-56 | ends the merged subscription, so the synchroniser is no longer live |
| InfiniteTable.InfiniteTableDirective.OnOffsetEvent | src/app/directives/infinite-table.directive.ts:41-50 | one event has the effect of one `Sample`: an accepted offset is written to every header cell and logged; a rejected one leaves the cells as they were |
| InfiniteTable.InfiniteTableDirective.SetHeaderTops | src/app/directives/infinite-table.directive.ts:48-50 | every header cell's `top` becomes the offset |
| InfiniteTable.Sample | src/app/directives/infinite-table.directive.ts:41-50 | one event never changes whether the synchroniser is live; a non-live one writes nothing and keeps its state; a dropped sample and any range sample leave the scroll memory as it was |
| InfiniteTable.Run | src/app/directives/infinite-table.directive.ts:46-50 | a run of events writes at most one offset per event |
| InfiniteTable.InactiveRepaintsNothing | src/app/directives/infinite-table.directive.ts:36-56 | a synchroniser never installed or already destroyed writes no offset, whatever events arrive |
| InfiniteTable.RunKeepsActivity | src/app/directives/infinite-table.directive.ts:46-50 | events never change whether the subscription is live |
| InfiniteTable.RangeSamplesAllApplied | src/app/directives/infinite-table.directive.ts:41 | every range event writes `start * -itemSize`, with no de-duplication |
| InfiniteTable.IdenticalScrollsRepaintOnce | src/app/directives/infinite-table.directive.ts:42-45 | two identical consecutive scroll samples write `-offset` once, or not at all when it repeats the last scroll value |
| InfiniteTable.ScrollDedupIgnoresRangeSamples | src/app/directives/infinite-table.directive.ts:42-46 | de-duplication compares scroll samples only: scroll, range, same scroll writes `[-offset, start * -itemSize]` |
| MyTable.CeilDiv | src/app/my-table/my-table.component.ts:159 | `ceil(a / b)`: `(q - 1) * b < a <= q * b` |
| MyTable.PageOf | src/app/my-table/my-table.component.ts:161-166 | a page of `PAGES` is never longer than `ELEMENT_DATA` |
| MyTable.Pages | src/app/my-table/my-table.component.ts:153-168 | the `PAGES` fixture; its shape is stated by `MyTable.PagesShape` |
| MyTable.PagesShape | src/app/my-table/my-table.component.ts:153-168 | `PAGES` has 5 pages; page `p` holds `min(10p + 10, 42) - 10p` items, item `i` being row `i` at position `10p + i` |
| MyTable.PageLengths | src/app/my-table/my-table.component.ts:162-164 | the page lengths are 10, 10, 10, 10 and 2 |
| MyTable.PageItem | src/app/my-table/my-table.component.ts:165 | item `i` of page `p` is row `i` at position `10p + i` |
| MyTable.FlattenFrom | src/app/my-table/my-table.component.ts:165 | the pages from page `k` on hold positions `10k .. 41` in order |
| MyTable.AllPositions | src/app/my-table/my-table.component.ts:165 | all pages together hold positions 0 to 41 in order |
| MyTable.MockFetch | src/app/my-table/my-table.component.ts:35 | returns `PAGES[page]` for `0 <= page < 5` and `[]` otherwise, always with total 42 |
| MyTable.MockFetchedData | src/app/my-table/my-table.component.ts:35 | the mock's data for pages `k..4` is `PAGES` from page `k` on, concatenated |
| MyTable.MockPagesFull | src/app/my-table/my-table.component.ts:35 | the mock returns full pages of 10 for pages 0 to 3 |
| MyTable.FixtureBootstrap | src/app/my-table/my-table.component.ts:34-37 | the first `{0, 1}` event resolves to page 0, whose fetch caches page 0, stores total 42, commands `{0, 4}` and leaves page 0 as the array |
| MyTable.FullLoad | src/app/my-table/my-table.component.ts:34-37 | fetching pages 0 to 4 in order from the attached state fills the array with `PAGES` concatenated |
| MyTable.RecommandedRange | src/app/model/table-data-source.ts:105-111 | the fixture's `{0, 4}` command resolves to pages 0 and 1 before page 0 is cached, and to page 1 alone after it |
| MyTable.JumpAheadLandsAtEnd | src/app/my-table/my-table.component.ts:34-37 | with page 0 alone in the array, fetching page 3 puts position 30 at index 10, not 30 |
| MyTable.MyTableComponent.constructor | src/app/my-table/my-table.component.ts:34-37 | the data source is built with the mock fetch and page size `ELEMENT_DATA.length == 10`, empty, nothing expanded |
| MyTable.Toggle | src/app/my-table/my-table.component.ts:41-42 | the result is `null` iff the clicked element was the expanded one, and the clicked element otherwise |
| MyTable.ToggleTwice | src/app/my-table/my-table.component.ts:41-42 | clicking an element twice from nothing returns to nothing; clicking another switches to it |
| MyTable.MyTableComponent.OnClickedRow | src/app/my-table/my-table.component.ts:41-44 | the expanded element becomes the toggle of the old one by the clicked element |

## Left out

- RxJS scheduling. `switchMap`, `exhaustMap`, `combineLatest` and `merge` are not modelled as streams. A range event is a synchronous batch, a sequential loop of per-page steps over the resolver's output. The model does not capture pages that `exhaustMap` drops while a fetch-and-update is still running, or the rest of a resolver pass that `switchMap` cancels when a new range arrives. It does not capture interleaving either.
- Fetch errors. The rxjs behaviour on a rejected fetch is not visible in the code. The model only has the success path, the one path on which the cache is updated.
- Non-integer values. `pageSize` and `itemSize` are integers: floating point, NaN and a zero page size are not modelled, and the page size is required to be positive.
- Viewport internals. `CdkVirtualScrollViewport` is not modelled: `attach(this)`, the range and scroll streams, and `getOffsetToRenderedContentStart`. The data source takes "is a viewport present" as an input. The range events and the content offset are event arguments.
- `setRenderedRange` feedback. A command is recorded in the `commands` log. It is not fed back as a new range event: the viewport decides whether to emit one. A total change issues its command inside the step, before the page is cached. If the viewport emits the new range at once, `switchMap` cancels the rest of the current batch, and `exhaustMap` drops every page the new range resolves to while the step is still running. The model applies the whole batch instead, and a later range event fetches those pages. For example, the fixture's `{0, 4}` command resolves to pages 0 and 1 inside the step, and both are dropped. Fed to the model as the next event, `{0, 4}` fetches page 1 (`MyTable.RecommandedRange`).
- `MatTableDataSource` sorting and filtering. Its `data` is a plain sequence that is passed through.
- Renderer and framework calls beyond "header `top` := offset". Also left out: `ChangeDetectorRef.detectChanges`, animations, decorators and `console.log`.
- Several subscriptions. Attaching twice, or connecting several times, adds subscriptions in the source. The model keeps a single subscription flag and a single publisher.
- Re-binding directive inputs after `ngOnInit`.
- Object identity. `===` on elements is modelled as structural equality. Every `PAGES` item has a unique position, so the two agree on the fixture.
- src/app/app.module.ts is not part of this model: it only wires Angular modules.
- The elements' `name`, `weight`, `symbol` and `description`. They are represented by the index of the row they were copied from.
- JsArray.Slice: states its properties only for non-negative bounds, which is all the viewport produces. Negative bounds are computed by the definition but no contract is stated for them.
- JsArray.Splice: states its layout only for non-negative start and delete count. Those are the only values `page * pageSize` and `pageSize` take for pages the resolver emits.
