/** The demo table: its ten periodic-table rows, the 42-item `PAGES` fixture
    built from them, the mock fetch the data source is constructed with, and
    the row-expansion toggle. */
module MyTable {
  import opened Wrappers
  import opened JsArray
  import TableData

  /** An element of the table. `row` stands for the entry of the ten fixed
      rows it was copied from (name, weight, symbol, description). */
  datatype PeriodicElement = PeriodicElement(row: nat, position: int)

  /** `ELEMENTS_AMOUNT`. */
  const ElementsAmount: nat := 42

  /** `ELEMENT_DATA`: Hydrogen (position 1) to Neon (position 10). */
  function ElementData(): seq<PeriodicElement>
  {
    seq(10, i requires 0 <= i < 10 => PeriodicElement(i, i + 1))
  }

  /** `Math.ceil(a / b)`. */
  function CeilDiv(a: nat, b: TableData.PageSize): (q: nat)
    ensures (q - 1) * b < a <= q * b
  {
    (a + b - 1) / b
  }

  /** Page `p` of `PAGES`: the first `limit - p * pageSize` rows, renumbered
      from `p * pageSize`. */
  function PageOf(p: int): (r: seq<PeriodicElement>)
    ensures |r| <= |ElementData()|
  {
    var pageSize := |ElementData()|;
    var limit := Min(p * pageSize + pageSize, ElementsAmount);
    var rows := Slice(ElementData(), 0, limit - p * pageSize);
    seq(|rows|, i requires 0 <= i < |rows| => rows[i].(position := p * pageSize + i))
  }

  /** `PAGES`. */
  function Pages(): seq<seq<PeriodicElement>>
  {
    seq(CeilDiv(ElementsAmount, |ElementData()|), p => PageOf(p))
  }

  function Flatten(pages: seq<seq<PeriodicElement>>): seq<PeriodicElement>
  {
    if pages == [] then [] else pages[0] + Flatten(pages[1..])
  }

  lemma FlattenAt(pages: seq<seq<PeriodicElement>>, k: nat)
    requires k < |pages|
    ensures Flatten(pages[k..]) == pages[k] + Flatten(pages[k + 1..])
  {
    assert pages[k..][1..] == pages[k + 1..];
  }

  /** There are `ceil(42 / 10) == 5` pages; page `p` holds
      `min(p * 10 + 10, 42) - p * 10` items, its `i`-th item being row `i`
      at position `p * 10 + i`. */
  lemma PagesShape()
    ensures |Pages()| == 5
    ensures forall p :: 0 <= p < 5 ==> |Pages()[p]| == Min(p * 10 + 10, ElementsAmount) - p * 10
    ensures forall p, i :: 0 <= p < 5 && 0 <= i < |Pages()[p]| ==>
      Pages()[p][i] == PeriodicElement(i, p * 10 + i)
  {
    assert CeilDiv(ElementsAmount, 10) == 5;
  }

  /** The page lengths are 10, 10, 10, 10 and 2. */
  lemma PageLengths()
    ensures |Pages()| == 5
    ensures |Pages()[0]| == 10 && |Pages()[1]| == 10 && |Pages()[2]| == 10 && |Pages()[3]| == 10
    ensures |Pages()[4]| == 2
  {
    PagesShape();
  }

  /** Concatenating the pages from page `k` on gives the positions
      `10 * k .. 41` in order. */
  lemma {:induction false} FlattenFrom(k: nat)
    requires k <= 4
    ensures |Flatten(Pages()[k..])| == ElementsAmount - 10 * k
    ensures forall j :: 0 <= j < |Flatten(Pages()[k..])| ==> Flatten(Pages()[k..])[j].position == 10 * k + j
    decreases 4 - k
  {
    PagesShape();
    var head: seq<PeriodicElement> := Pages()[k];
    var tail: seq<PeriodicElement> := Flatten(Pages()[k + 1..]);
    assert Pages()[k..][1..] == Pages()[k + 1..];
    assert Flatten(Pages()[k..]) == head + tail;
    if k < 4 {
      FlattenFrom(k + 1);
    } else {
      assert Pages()[k + 1..] == [];
    }
    forall j | 0 <= j < |head + tail| ensures (head + tail)[j].position == 10 * k + j {
      if j >= |head| {
        assert (head + tail)[j] == tail[j - |head|];
      }
    }
  }

  /** All pages together hold positions 0 to 41, in order. */
  lemma AllPositions()
    ensures |Flatten(Pages())| == ElementsAmount
    ensures forall j :: 0 <= j < |Flatten(Pages())| ==> Flatten(Pages())[j].position == j
  {
    FlattenFrom(0);
    assert Pages()[0..] == Pages();
  }

  /** The fetch function the table's data source is built with: page `page`
      of `PAGES` when it exists, no data otherwise, and always the total 42. */
  function MockFetch(page: int, size: int): (r: TableData.PaginationResult<PeriodicElement>)
    ensures r.total == ElementsAmount
    ensures |r.data| <= |ElementData()|
    ensures 0 <= page < 5 ==> r.data == Pages()[page]
    ensures !(0 <= page < 5) ==> r.data == []
  {
    PagesShape();
    TableData.PaginationResult(if 0 <= page < |Pages()| then Pages()[page] else [], ElementsAmount)
  }

  /** The cache before any fetch, with the `{0, 1}` command `attach` sends. */
  function Attached(): TableData.PageCache<PeriodicElement>
  {
    TableData.PageCache([], {}, 0, [], [TableData.RenderRange(0, 1)])
  }

  /** The first range event `{0, 1}` on the fixture: the resolver bootstraps
      page 0, whose fetch reports the total 42, so the viewport is told to
      render `{0, 4}`, page 0 is cached and the backing array is page 0. */
  lemma FixtureBootstrap()
    ensures TableData.Resolve(TableData.RenderRange(0, 1), 0, 10, {}) == [0]
    ensures var r := TableData.ApplyPage(Attached(), 0, 10, MockFetch);
      && r.data == Pages()[0] && r.pageCache == {0} && r.total == 42 && r.fetches == [0]
      && r.commands == [TableData.RenderRange(0, 1), TableData.RenderRange(0, 4)]
  {
    TableData.Bootstrap(TableData.RenderRange(0, 1), 10, {});
    TableData.SplicePastEnd(Attached(), 0, 10, MockFetch);
    TableData.ApplyPageEffects(Attached(), 0, 10, MockFetch);
    assert 42 / 10 == 4;
  }

  /** The `{0, 4}` command the bootstrap fetch issues: resolved inside that
      step, before page 0 is cached, it yields pages 0 and 1; resolved after
      the step, it yields page 1 alone. */
  lemma RecommandedRange()
    ensures TableData.Resolve(TableData.RenderRange(0, 4), 42, 10, {}) == [0, 1]
    ensures TableData.Resolve(TableData.RenderRange(0, 4), 42, 10, {0}) == [1]
  {
    assert TableData.PageForIndex(14, 10) == 1 && TableData.PageForIndex(42, 10) == 4;
    assert TableData.PagesIn(0, 0, {}) == [0];
    assert TableData.PagesIn(0, 0, {0}) == [];
  }

  /** Jumping ahead: with the array holding page 0 alone (as after the
      bootstrap), a range that resolves to page 3 splices page 3 at the end
      of the 10-item array, because `splice` clamps its start, so position
      30 lands at index 10 instead of index 30. */
  lemma JumpAheadLandsAtEnd(s: TableData.PageCache<PeriodicElement>)
    requires s.data == Pages()[0] && 3 !in s.pageCache
    ensures var r := TableData.ApplyPage(s, 3, 10, MockFetch);
      |r.data| == 20 && r.data[10] == PeriodicElement(0, 30)
  {
    PageLength(0);
    PageLength(3);
    TableData.SplicePastEnd(s, 3, 10, MockFetch);
    PageItem(3, 0);
  }

  /** Item `i` of page `p` of `PAGES`. */
  lemma PageItem(p: nat, i: nat)
    requires p < |Pages()| && i < |Pages()[p]|
    ensures Pages()[p][i] == PeriodicElement(i, p * 10 + i)
  {
    PagesShape();
  }

  /** The data the mock returns for pages `k..4` is `PAGES` from page `k` on. */
  lemma {:induction false} MockFetchedData(k: nat)
    requires k <= 5
    ensures TableData.FetchedData(k, 5, 10, MockFetch) == Flatten(Pages()[k..])
    decreases 5 - k
  {
    PageLength(0);
    if k < 5 {
      MockFetchedData(k + 1);
      FlattenAt(Pages(), k);
    } else {
      assert Pages()[k..] == [];
    }
  }

  /** The length of one page of `PAGES`. */
  lemma PageLength(k: nat)
    requires k < 5
    ensures |Pages()| == 5 && |Pages()[k]| == if k < 4 then 10 else 2
  {
    PageLengths();
  }

  /** The mock returns full pages for pages 0 to 3. */
  lemma MockPagesFull()
    ensures forall p :: 0 <= p < 4 ==> |MockFetch(p, 10).data| == 10
  {
    forall p | 0 <= p < 4 ensures |MockFetch(p, 10).data| == 10 {
      PageLength(p);
    }
  }

  /** Fetching pages 0 to 4 in ascending order from an empty cache fills the
      backing array with `PAGES` concatenated, so with positions 0 to 41 in order. */
  lemma FullLoad()
    ensures TableData.ApplyBatch(Attached(), TableData.Interval(0, 5), 10, MockFetch).data == Flatten(Pages())
  {
    MockPagesFull();
    TableData.LoadConsecutive(Attached(), 0, 5, 10, MockFetch);
    MockFetchedData(0);
    assert Pages()[0..] == Pages();
  }

  /** `onClickedRow`: the clicked element collapses when it is the expanded
      one, and becomes the expanded one otherwise. */
  function Toggle(expanded: Option<PeriodicElement>, element: PeriodicElement): (r: Option<PeriodicElement>)
    ensures r == None <==> expanded == Some(element)
    ensures r != None ==> r == Some(element)
  {
    if expanded == Some(element) then None else Some(element)
  }

  /** Clicking the same element twice from nothing expanded returns to nothing
      expanded; clicking another element switches to it. */
  lemma ToggleTwice(element: PeriodicElement, other: PeriodicElement)
    requires element != other
    ensures Toggle(Toggle(None, element), element) == None
    ensures Toggle(Toggle(None, element), other) == Some(other)
  {
  }

  class MyTableComponent {
    var expandedElement: Option<PeriodicElement>
    const dataSource: TableData.TableDataSource<PeriodicElement>

    /** The data source is built with the mock fetch and a page size of
        `ELEMENT_DATA.length`, which is 10. */
    constructor ()
      ensures expandedElement == None
      ensures fresh(dataSource) && dataSource.Valid()
      ensures dataSource.pageSize == |ElementData()| == 10
      ensures dataSource.fetchPage == MockFetch
      ensures dataSource.Cache() == TableData.PageCache([], {}, 0, [], [])
    {
      expandedElement := None;
      dataSource := new TableData.TableDataSource(MockFetch, |ElementData()|);
    }

    method OnClickedRow(element: PeriodicElement)
      modifies this
      ensures expandedElement == Toggle(old(expandedElement), element)
    {
      expandedElement := if expandedElement == Some(element) then None else Some(element);
    }
  }
}
