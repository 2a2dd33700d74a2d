/** The two ECMAScript array operations the pagination cache relies on,
    with their clamping rules written out: `Array.prototype.slice` and
    `Array.prototype.splice`, as ECMA-262 defines them.
    Arguments are taken to be integers already (no NaN, no fractions). */
module JsArray {

  function Min(a: int, b: int): int { if a <= b then a else b }

  function Max(a: int, b: int): int { if a >= b then a else b }

  /** Relative index resolution shared by slice and splice: a negative index
      counts back from the end, and the result is clamped into [0, len]. */
  function RelativeIndex(index: int, len: nat): (k: nat)
    ensures k <= len
    ensures 0 <= index ==> k == Min(index, len)
  {
    if index < 0 then Max(len + index, 0) else Min(index, len)
  }

  /** `a.slice(start, end)`. */
  function Slice<T>(a: seq<T>, start: int, end: int): (r: seq<T>)
    ensures |r| <= |a|
    ensures 0 <= start && 0 <= end ==> |r| == Max(Min(end, |a|) - Min(start, |a|), 0)
    ensures 0 <= start ==> forall k :: 0 <= k < |r| ==> start + k < |a| && r[k] == a[start + k]
    ensures 0 <= end <= start ==> r == []
  {
    var from := RelativeIndex(start, |a|);
    var to := RelativeIndex(end, |a|);
    if from >= to then [] else a[from..to]
  }

  /** The array that `a.splice(start, deleteCount, ...items)` leaves behind
      (the in-place update of a copy, which is how the source uses it). */
  function Splice<T>(a: seq<T>, start: int, deleteCount: int, items: seq<T>): (r: seq<T>)
    ensures 0 <= start && 0 <= deleteCount ==>
      |r| == |a| + |items| - (Min(start + deleteCount, |a|) - Min(start, |a|))
    ensures 0 <= start && 0 <= deleteCount ==>
      var at := Min(start, |a|);
      && r[..at] == a[..at]
      && r[at..at + |items|] == items
      && r[at + |items|..] == a[Min(start + deleteCount, |a|)..]
  {
    var from := RelativeIndex(start, |a|);
    var removed := Min(Max(deleteCount, 0), |a| - from);
    a[..from] + items + a[from + removed..]
  }
}
