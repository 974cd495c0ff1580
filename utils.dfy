/** The price of one half-open time interval (custom_components/dam-ua-price/utils.py). */
module Utils {

  /**
   * A price valid over `[start, end)`, both in epoch seconds. Being a datatype
   * value it is immutable, like the frozen dataclass it models.
   */
  datatype TimeRangePrice = TimeRangePrice(start: int, end: int, value: real) {

    /** Whether instant `t` lies in the interval: the start counts, the end does not. */
    predicate Contains(t: int) {
      start <= t < end
    }

    /** Length of the interval in seconds. */
    function Duration(): (d: int)
      ensures start + d == end
      ensures start < end ==> d > 0
    {
      end - start
    }
  }

  /** Membership is exactly `start <= t < end`: the start is inside, the end is not. */
  lemma ContainsBounds(p: TimeRangePrice)
    requires p.start < p.end
    ensures p.Contains(p.start) && !p.Contains(p.end)
    ensures forall t :: p.Contains(t) <==> p.start <= t < p.end
  {
  }

  /** Two entries that meet (`a.end == b.start`) never both contain an instant. */
  lemma AdjacentDisjoint(a: TimeRangePrice, b: TimeRangePrice, t: int)
    requires a.end == b.start
    ensures !(a.Contains(t) && b.Contains(t))
  {
  }
}
