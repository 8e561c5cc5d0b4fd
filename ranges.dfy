/**
 * Rust's `RangeInclusive<u64>` as the backfill jobs use it: a start, an end and
 * the `exhausted` flag that `next()` sets instead of stepping past `end`, so
 * that a range ending at `u64::MAX` can be drained without overflow.
 */
module Ranges {
  import opened Wrappers
  import opened Primitives

  datatype RangeInclusive = RangeInclusive(start: BlockNumber, end: BlockNumber, exhausted: bool)
  {
    /** `RangeInclusive::is_empty`. */
    predicate IsEmpty() { exhausted || start > end }

    /** The numbers the range still yields, in ascending order. */
    function Numbers(): (ns: seq<BlockNumber>)
      ensures IsEmpty() <==> ns == []
      ensures !IsEmpty() ==> |ns| == end - start + 1 && ns[0] == start
      ensures forall i :: 0 <= i < |ns| ==> ns[i] == start + i <= end
    {
      if IsEmpty() then []
      else seq(end - start + 1, i requires 0 <= i < end - start + 1 => (start + i) as BlockNumber)
    }
  }

  /** The fresh range `start..=end`. */
  function Inclusive(start: BlockNumber, end: BlockNumber): RangeInclusive
  {
    RangeInclusive(start, end, false)
  }

  /**
   * `Iterator::next` on a `RangeInclusive`: the item yielded and the range
   * left behind.
   */
  function Next(r: RangeInclusive): (res: (Option<BlockNumber>, RangeInclusive))
    ensures res.0.None? <==> r.IsEmpty()
    ensures res.0.None? ==> res.1 == r
    ensures res.0.Some? ==> res.0.value == r.start && r.Numbers() == [r.start] + res.1.Numbers()
  {
    if r.IsEmpty() then (None, r)
    else if r.start < r.end then (Some(r.start), RangeInclusive(r.start + 1, r.end, false))
    else (Some(r.start), RangeInclusive(r.start, r.end, true))
  }
}
