/** The `appTable` directive: keeps the sticky header cells at the top of the
    rendered window by merging two offset signals of the viewport, one
    derived from the rendered range and one from scrolling, the latter with
    adjacent duplicates suppressed. The pure definitions say what one sample
    does; the class holds the lifecycle state and the header cells. */
module InfiniteTable {
  import opened Wrappers
  import TableData

  /** One event reaching the merged stream `merge(scroll$, render$)`. */
  datatype OffsetEvent =
    | RangeRendered(start: int)
      // the rendered range changed and now starts at row `start`
    | IndexScrolled(offsetToContentStart: int)
      // the scrolled index changed; the argument is what the viewport's
      // `getOffsetToRenderedContentStart()` returns at that moment

  /** Whether the merged subscription is live (installed and not yet torn
      down), and the scroll-derived value `distinctUntilChanged` last let through. */
  datatype SyncState = SyncState(active: bool, lastScroll: Option<int>)

  /** The state after one event and the offset it writes to the headers, if any. */
  datatype SampleResult = SampleResult(state: SyncState, offset: Option<int>)

  /** The state after a run of events and the offsets written, in order. */
  datatype RunResult = RunResult(state: SyncState, repaints: seq<int>)

  predicate Truthy(itemSize: Option<int>)
  {
    itemSize.Some? && itemSize.value != 0
  }

  /** One event through the merged stream: a live synchroniser writes every
      range sample and every scroll sample that differs from the last scroll
      value; only a written scroll sample updates the memory, and no sample
      changes whether the synchroniser is live. */
  function Sample(s: SyncState, itemSize: int, e: OffsetEvent): (r: SampleResult)
    ensures r.state.active == s.active
    ensures !s.active ==> r == SampleResult(s, None)
    ensures r.offset.None? ==> r.state == s
    ensures e.RangeRendered? ==> r.state == s
  {
    if !s.active then SampleResult(s, None)
    else match e
      case RangeRendered(start) => SampleResult(s, Some(start * -itemSize))
      case IndexScrolled(offset) =>
        var v := offset * -1;
        if s.lastScroll == Some(v) then SampleResult(s, None)
        else SampleResult(s.(lastScroll := Some(v)), Some(v))
  }

  /** A sequence of events through the merged stream: each event writes at
      most one offset. */
  function Run(s: SyncState, itemSize: int, events: seq<OffsetEvent>): (r: RunResult)
    ensures |r.repaints| <= |events|
    decreases |events|
  {
    if events == [] then RunResult(s, [])
    else
      var first := Sample(s, itemSize, events[0]);
      var rest := Run(first.state, itemSize, events[1..]);
      RunResult(rest.state, (if first.offset.Some? then [first.offset.value] else []) + rest.repaints)
  }

  /** A synchroniser that is not live (never installed, or torn down) writes
      no header offset, whatever events arrive. */
  lemma {:induction false} InactiveRepaintsNothing(s: SyncState, itemSize: int, events: seq<OffsetEvent>)
    requires !s.active
    ensures Run(s, itemSize, events) == RunResult(s, [])
    decreases |events|
  {
    if events != [] {
      InactiveRepaintsNothing(s, itemSize, events[1..]);
    }
  }

  /** Events never change whether the synchroniser is live. */
  lemma {:induction false} RunKeepsActivity(s: SyncState, itemSize: int, events: seq<OffsetEvent>)
    ensures Run(s, itemSize, events).state.active == s.active
    decreases |events|
  {
    if events != [] {
      RunKeepsActivity(Sample(s, itemSize, events[0]).state, itemSize, events[1..]);
    }
  }

  /** Range-derived offsets are never de-duplicated: each range event writes
      `start * -itemSize`, even when it repeats the previous one. */
  lemma {:induction false} RangeSamplesAllApplied(s: SyncState, itemSize: int, events: seq<OffsetEvent>)
    requires s.active
    requires forall k :: 0 <= k < |events| ==> events[k].RangeRendered?
    ensures var r := Run(s, itemSize, events).repaints;
      |r| == |events| && forall k :: 0 <= k < |r| ==> r[k] == events[k].start * -itemSize
    decreases |events|
  {
    if events != [] {
      RangeSamplesAllApplied(s, itemSize, events[1..]);
    }
  }

  /** Two consecutive identical scroll samples reposition the headers at
      most once: once when the value is new, never when it repeats the last
      scroll-derived value. */
  lemma IdenticalScrollsRepaintOnce(s: SyncState, itemSize: int, offset: int)
    requires s.active
    ensures Run(s, itemSize, [IndexScrolled(offset), IndexScrolled(offset)]).repaints ==
      if s.lastScroll == Some(-offset) then [] else [-offset]
  {
    var e := IndexScrolled(offset);
    var first := Sample(s, itemSize, e);
    assert first.state.lastScroll == Some(-offset);
    assert [e, e][1..] == [e];
    assert Run(first.state, itemSize, [e]).repaints == [];
  }

  /** Suppression compares a scroll sample with the previous scroll sample
      only: a range sample in between moves the headers, and the repeated
      scroll sample that follows is still dropped. */
  lemma ScrollDedupIgnoresRangeSamples(s: SyncState, itemSize: int, offset: int, start: int)
    requires s.active && s.lastScroll != Some(-offset)
    ensures Run(s, itemSize, [IndexScrolled(offset), RangeRendered(start), IndexScrolled(offset)]).repaints ==
      [-offset, start * -itemSize]
  {
    var events := [IndexScrolled(offset), RangeRendered(start), IndexScrolled(offset)];
    var s1 := Sample(s, itemSize, events[0]).state;
    assert events[1..] == [RangeRendered(start), IndexScrolled(offset)];
    assert events[1..][1..] == [IndexScrolled(offset)];
    assert Run(s1, itemSize, events[1..][1..]).repaints == [];
  }

  class InfiniteTableDirective<T> {
    /** The `appDataSource` input; `null` when it is not bound. */
    var dataSource: TableData.TableDataSource?<T>
    /** The `itemSize` input; `None` when it is not bound. */
    var itemSize: Option<int>
    /** The `top` style of each header cell; `None` until one is written. */
    const headerTops: array<Option<int>>
    var invalidInput: bool
    /** `ngOnInit` has run (Angular runs it before `ngAfterContentInit`). */
    var initialized: bool
    /** `ngAfterContentInit` subscribed the merged offset stream. */
    var installed: bool
    /** `destroy$` has fired, ending the merged subscription. */
    var destroyed: bool
    /** The memory of `distinctUntilChanged` on the scroll-derived offsets. */
    var lastScroll: Option<int>
    /** Offsets written to the header cells, in order. */
    ghost var repaints: seq<int>

    ghost predicate Valid()
      reads this
    {
      && (invalidInput ==> initialized)
      && (initialized && !invalidInput ==> dataSource != null && Truthy(itemSize))
      && (installed ==> initialized && !invalidInput)
    }

    ghost function Sync(): SyncState
      reads this
    {
      SyncState(installed && !destroyed, lastScroll)
    }

    function ItemSize(): int
      reads this
    {
      if itemSize.Some? then itemSize.value else 0
    }

    /** The directive with its inputs bound and `headerCount` header cells. */
    constructor (dataSource: TableData.TableDataSource?<T>, itemSize: Option<int>, headerCount: nat)
      ensures Valid()
      ensures this.dataSource == dataSource && this.itemSize == itemSize
      ensures fresh(headerTops) && headerTops.Length == headerCount
      ensures forall k :: 0 <= k < headerCount ==> headerTops[k] == None
      ensures !invalidInput && !initialized && !installed && !destroyed
      ensures lastScroll == None && repaints == []
    {
      this.dataSource := dataSource;
      this.itemSize := itemSize;
      headerTops := new Option<int>[headerCount](_ => None);
      invalidInput, initialized, installed, destroyed := false, false, false, false;
      lastScroll := None;
      repaints := [];
    }

    /** `ngOnInit`: a missing data source or a missing or zero item size sets
        `invalidInput` and throws; otherwise the data source is attached to
        the (injected, hence present) viewport. */
    method NgOnInit() returns (r: Outcome<string>)
      requires Valid() && !initialized
      requires dataSource != null ==> dataSource.Valid()
      modifies this, dataSource
      ensures Valid() && initialized
      ensures r.Fail? <==> !(old(dataSource) != null && Truthy(old(itemSize)))
      ensures invalidInput == r.Fail?
      ensures dataSource == old(dataSource) && itemSize == old(itemSize)
      ensures installed == old(installed) && destroyed == old(destroyed)
      ensures lastScroll == old(lastScroll) && repaints == old(repaints)
      ensures r.Pass? ==>
        && dataSource.Valid() && dataSource.viewPortAttached && dataSource.subscribed
        && dataSource.Cache() ==
             old(dataSource.Cache()).(commands := old(dataSource.commands) + [TableData.RenderRange(0, 1)])
        && dataSource.connected == old(dataSource.connected)
        && dataSource.windowed == old(dataSource.windowed)
        && dataSource.lastRange == old(dataSource.lastRange)
      ensures r.Fail? && old(dataSource) != null ==> unchanged(old(dataSource))
    {
      initialized := true;
      if !(dataSource != null && Truthy(itemSize)) {
        invalidInput := true;
        return Fail("appTable directive: data source and item size inputs must be provided.");
      }
      var attached := dataSource.Attach(true);
      r := Pass;
    }

    /** `ngAfterContentInit`: installs the merged offset subscription unless
        the inputs were found invalid. Angular runs it after `ngOnInit` and
        before `ngOnDestroy`. */
    method NgAfterContentInit()
      requires Valid() && initialized && !destroyed
      modifies this
      ensures Valid()
      ensures installed == (old(installed) || !invalidInput)
      ensures invalidInput == old(invalidInput) && destroyed == old(destroyed)
      ensures dataSource == old(dataSource) && itemSize == old(itemSize) && initialized
      ensures lastScroll == old(lastScroll) && repaints == old(repaints)
    {
      if invalidInput {
        return;
      }
      installed := true;
    }

    /** `ngOnDestroy`: ends the merged subscription. */
    method NgOnDestroy()
      requires Valid()
      modifies this
      ensures Valid() && destroyed && !Sync().active
      ensures installed == old(installed) && invalidInput == old(invalidInput)
      ensures dataSource == old(dataSource) && itemSize == old(itemSize) && initialized == old(initialized)
      ensures lastScroll == old(lastScroll) && repaints == old(repaints)
    {
      destroyed := true;
    }

    /** The subscriber of the merged stream: one event, after the scroll
        branch's `distinctUntilChanged`. An accepted sample is written to
        every header cell and nothing else changes. */
    method OnOffsetEvent(e: OffsetEvent)
      requires Valid()
      modifies this, headerTops
      ensures Valid()
      ensures var res := Sample(old(Sync()), old(ItemSize()), e);
        && Sync() == res.state
        && repaints == old(repaints) + (if res.offset.Some? then [res.offset.value] else [])
        && (res.offset.Some? ==> forall k :: 0 <= k < headerTops.Length ==> headerTops[k] == res.offset)
        && (res.offset.None? ==> headerTops[..] == old(headerTops[..]))
      ensures installed == old(installed) && destroyed == old(destroyed)
      ensures invalidInput == old(invalidInput) && initialized == old(initialized)
      ensures dataSource == old(dataSource) && itemSize == old(itemSize)
    {
      if !(installed && !destroyed) {
        return;
      }
      var offset: int;
      match e {
        case RangeRendered(start) =>
          offset := start * -ItemSize();
        case IndexScrolled(contentOffset) =>
          var v := contentOffset * -1;
          if lastScroll == Some(v) {
            return;
          }
          lastScroll := Some(v);
          offset := v;
      }
      SetHeaderTops(offset);
      repaints := repaints + [offset];
    }

    /** `headerCells.forEach(h => setStyle(h, 'top', offset + 'px'))`. */
    method SetHeaderTops(offset: int)
      modifies headerTops
      ensures forall k :: 0 <= k < headerTops.Length ==> headerTops[k] == Some(offset)
    {
      var k := 0;
      while k < headerTops.Length
        invariant 0 <= k <= headerTops.Length
        invariant forall j :: 0 <= j < k ==> headerTops[j] == Some(offset)
      {
        headerTops[k] := Some(offset);
        k := k + 1;
      }
    }
  }
}
