/**
 * The values the sensors derive from the cache
 * (custom_components/dam-ua-price/sensor.py): last, current and next hour's
 * price, the day's lowest and highest price, the daily average and the
 * household tariffs.
 */
module Sensor {
  import opened Wrappers
  import opened Clock
  import opened Utils
  import opened Coordinator

  // ---------------------------------------------------------------------------
  // Point-in-time lookup (get_prices; validate_prices follows the cache lemmas)
  // ---------------------------------------------------------------------------

  /** Value of the last entry, in iteration order, whose interval contains `t`. */
  function PriceAt(entries: seq<TimeRangePrice>, t: int): (r: Option<real>)
    ensures r.None? <==> forall i :: 0 <= i < |entries| ==> !entries[i].Contains(t)
    ensures r.Some? ==> exists i :: 0 <= i < |entries| && entries[i].Contains(t) && entries[i].value == r.value &&
                          forall j :: i < j < |entries| ==> !entries[j].Contains(t)
  {
    if entries == [] then None
    else if entries[|entries| - 1].Contains(t) then Some(entries[|entries| - 1].value)
    else PriceAt(entries[..|entries| - 1], t)
  }

  /** `(last, current, next)` as get_prices returns them. */
  datatype Prices = Prices(last: Option<real>, current: real, next: Option<real>)

  /**
   * get_prices at clock reading `now`: each of the three instants takes the
   * value of the last entry containing it; the current price defaults to 0.
   */
  method GetPrices(entries: seq<TimeRangePrice>, now: int) returns (p: Prices)
    ensures p.last == PriceAt(entries, now - HourSeconds)
    ensures p.current == PriceAt(entries, now).GetOr(0.0)
    ensures p.next == PriceAt(entries, now + HourSeconds)
  {
    var lastPrice: Option<real> := None;
    var currentPrice: real := 0.0;
    var nextPrice: Option<real> := None;
    var previousTime, nextTime := now - HourSeconds, now + HourSeconds;
    for i := 0 to |entries|
      invariant lastPrice == PriceAt(entries[..i], previousTime)
      invariant currentPrice == PriceAt(entries[..i], now).GetOr(0.0)
      invariant nextPrice == PriceAt(entries[..i], nextTime)
    {
      assert entries[..i + 1][..i] == entries[..i];
      var entry := entries[i];
      if entry.Contains(now) {
        currentPrice := entry.value;
      }
      if entry.Contains(previousTime) {
        lastPrice := Some(entry.value);
      }
      if entry.Contains(nextTime) {
        nextPrice := Some(entry.value);
      }
    }
    assert entries[..|entries|] == entries;
    p := Prices(lastPrice, currentPrice, nextPrice);
  }

  /** Looking up in `a + b` finds the entry of `b` if there is one, else that of `a`. */
  lemma {:induction false} PriceAtAppend(a: seq<TimeRangePrice>, b: seq<TimeRangePrice>, t: int)
    ensures PriceAt(a + b, t) == if PriceAt(b, t).Some? then PriceAt(b, t) else PriceAt(a, t)
  {
    if b != [] {
      var b' := b[..|b| - 1];
      assert (a + b)[..|a + b| - 1] == a + b';
      PriceAtAppend(a, b', t);
    } else {
      assert a + b == a;
    }
  }

  /** In a day's 24 tiled entries the lookup finds the entry of the hour `t` falls in, or nothing outside the day. */
  lemma TiledPriceAt(es: seq<TimeRangePrice>, dayStart: int, t: int)
    requires TilesDay(es, dayStart)
    ensures PriceAt(es, t) == if dayStart <= t < dayStart + DaySeconds then Some(es[(t - dayStart) / HourSeconds].value) else None
  {
    if dayStart <= t < dayStart + DaySeconds {
      var i := (t - dayStart) / HourSeconds;
      TiledEntryAt(es, dayStart, t, i);
      var k :| 0 <= k < |es| && es[k].Contains(t) && es[k].value == PriceAt(es, t).value;
      TiledDayDisjoint(es, dayStart, t, i, k);
    } else {
      forall i | 0 <= i < |es| ensures !es[i].Contains(t) {
        TiledEntryAt(es, dayStart, t, i);
      }
    }
  }

  /**
   * Looking up an instant in all cached entries gives the cached price of its
   * Kyiv hour, or nothing when its Kyiv day is not cached: the days never overlap.
   */
  lemma {:induction false} StoreLookup(days: map<int, seq<TimeRangePrice>>, order: seq<int>, offset: int, t: int)
    requires forall i, j :: 0 <= i < j < |order| ==> order[i] != order[j]
    requires forall i :: 0 <= i < |order| ==> order[i] in days
    requires forall k :: k in order ==> k in days && TilesDay(days[k], DayStart(k, offset))
    ensures PriceAt(AllEntries(days, order), t) ==
            if LocalDay(t, offset) in order && |days[LocalDay(t, offset)]| == HoursPerDay then Some(days[LocalDay(t, offset)][LocalHour(t, offset)].value) else None
  {
    if order != [] {
      var init, last := order[..|order| - 1], order[|order| - 1];
      StoreLookup(days, init, offset, t);
      PriceAtAppend(AllEntries(days, init), days[last], t);
      TiledPriceAt(days[last], DayStart(last, offset), t);
      LocalDayIff(t, offset, last);
      LocalHourSinceMidnight(t, offset);
      assert order == init + [last];
      if LocalDay(t, offset) == last {
        DivHour(t - DayStart(last, offset), LocalHour(t, offset), t - DayStart(last, offset) - LocalHour(t, offset) * HourSeconds);
        assert last !in init;
      }
    }
  }

  /** The cached price of the Kyiv hour of `t`, if its Kyiv day is cached with a full day of entries. */
  function CachedPrice(days: map<int, seq<TimeRangePrice>>, offset: int, t: int): Option<real>
  {
    var d := LocalDay(t, offset);
    if d in days && |days[d]| == HoursPerDay then Some(days[d][LocalHour(t, offset)].value) else None
  }

  /**
   * With a well-formed coordinator, looking an instant up in all its entries
   * gives the cached price of that instant's Kyiv hour, or nothing when its
   * Kyiv day is not cached.
   */
  lemma PricesFromCache(c: DAMDataUpdateCoordinator, t: int)
    requires c.Valid()
    ensures PriceAt(AllEntries(c.pricesDayData, c.dayOrder), t) == CachedPrice(c.pricesDayData, c.utcOffset, t)
    ensures CachedPrice(c.pricesDayData, c.utcOffset, t).None? <==> LocalDay(t, c.utcOffset) !in c.pricesDayData
  {
    StoreLookup(c.pricesDayData, c.dayOrder, c.utcOffset, t);
  }

  /**
   * validate_prices for the last (0), current (1) and next (2) price sensor:
   * get_prices over all of the coordinator's entries, then component `index`,
   * with no price passed on as none. The current price is never none: it
   * defaults to 0.
   */
  method ValidatePrices(c: DAMDataUpdateCoordinator, now: int, index: int) returns (r: Option<real>)
    requires c.Valid() && 0 <= index <= 2
    ensures index == 0 ==> r == CachedPrice(c.pricesDayData, c.utcOffset, now - HourSeconds)
    ensures index == 1 ==> r == Some(CachedPrice(c.pricesDayData, c.utcOffset, now).GetOr(0.0))
    ensures index == 2 ==> r == CachedPrice(c.pricesDayData, c.utcOffset, now + HourSeconds)
  {
    var entries := c.GetAllPriceEntries();
    var p := GetPrices(entries, now);
    PricesFromCache(c, now - HourSeconds);
    PricesFromCache(c, now);
    PricesFromCache(c, now + HourSeconds);
    if index == 0 {
      r := p.last;
    } else if index == 1 {
      r := Some(p.current);
    } else {
      r := p.next;
    }
  }

  /** Today's cached list, when there is one, holds the price of the current Kyiv hour. */
  lemma CurrentDayHasNow(c: DAMDataUpdateCoordinator, utcNow: int)
    requires c.Valid()
    ensures var today := c.GetDataCurrentDay(utcNow);
      today != [] ==> PriceAt(today, utcNow) == Some(today[LocalHour(utcNow, c.utcOffset)].value)
  {
    var today := c.GetDataCurrentDay(utcNow);
    if today != [] {
      var b := ApiBase(utcNow, c.utcOffset);
      TiledPriceAt(today, b, utcNow);
      LocalHourSinceMidnight(utcNow, c.utcOffset);
      DivHour(utcNow - b, LocalHour(utcNow, c.utcOffset), utcNow - b - LocalHour(utcNow, c.utcOffset) * HourSeconds);
    }
  }

  // ---------------------------------------------------------------------------
  // Lowest and highest price (get_min_max_price)
  // ---------------------------------------------------------------------------

  /** Which of Python's `min` and `max` is passed in. */
  datatype Extreme = Lowest | Highest

  /** `min(a, b)` / `max(a, b)` as Python evaluates them: `a` unless `b` is strictly better. */
  function Pick(kind: Extreme, a: real, b: real): real
  {
    match kind
    case Lowest => if b < a then b else a
    case Highest => if b > a then b else a
  }

  /** `v` is at least as extreme as `w`. */
  predicate AtLeastAsExtreme(kind: Extreme, v: real, w: real)
  {
    match kind
    case Lowest => v <= w
    case Highest => v >= w
  }

  /**
   * get_min_max_price over a day's entries: the extreme value and the interval
   * of the LAST entry holding it (an equal value also replaces the one kept).
   */
  method GetMinMaxPrice(entries: seq<TimeRangePrice>, kind: Extreme) returns (price: real, start: int, end: int)
    requires entries != []
    ensures forall j :: 0 <= j < |entries| ==> AtLeastAsExtreme(kind, price, entries[j].value)
    ensures exists i :: 0 <= i < |entries| && entries[i] == TimeRangePrice(start, end, price) &&
                        forall j :: i < j < |entries| ==> entries[j].value != price
  {
    price, start, end := entries[0].value, entries[0].start, entries[0].end;
    ghost var at := 0;
    for i := 0 to |entries|
      invariant 0 <= at < |entries| && at <= i
      invariant entries[at] == TimeRangePrice(start, end, price)
      invariant forall j :: at < j < i ==> entries[j].value != price
      invariant forall j :: 0 <= j < i ==> AtLeastAsExtreme(kind, price, entries[j].value)
    {
      var candidate := entries[i].value;
      if candidate == Pick(kind, price, candidate) {
        price, start, end := candidate, entries[i].start, entries[i].end;
        at := i;
      }
    }
  }

  // ---------------------------------------------------------------------------
  // Daily average (DAMDailyAveragePriceSensor.native_value)
  // ---------------------------------------------------------------------------

  /** `sum(values)`. */
  function SumValues(entries: seq<TimeRangePrice>): real
  {
    if entries == [] then 0.0 else SumValues(entries[..|entries| - 1]) + entries[|entries| - 1].value
  }

  /** `sum(values) / len(values) if values else None`. */
  function DailyAverage(entries: seq<TimeRangePrice>): (r: Option<real>)
    ensures r.None? <==> entries == []
    ensures r.Some? ==> r.value * |entries| as real == SumValues(entries)
  {
    if entries == [] then None else Some(SumValues(entries) / |entries| as real)
  }

  /** Bounds on every value bound the sum. */
  lemma {:induction false} SumBounds(entries: seq<TimeRangePrice>, lo: real, hi: real)
    requires forall i :: 0 <= i < |entries| ==> lo <= entries[i].value <= hi
    ensures |entries| as real * lo <= SumValues(entries) <= |entries| as real * hi
  {
    if entries != [] {
      SumBounds(entries[..|entries| - 1], lo, hi);
    }
  }

  /** The average lies between the lowest and the highest price of the day. */
  lemma AverageWithinBounds(entries: seq<TimeRangePrice>, lo: real, hi: real)
    requires entries != []
    requires forall i :: 0 <= i < |entries| ==> lo <= entries[i].value <= hi
    ensures lo <= DailyAverage(entries).value <= hi
  {
    SumBounds(entries, lo, hi);
    var n, sum := |entries| as real, SumValues(entries);
    assert DailyAverage(entries).value == sum / n;
    QuotientBounds(sum, n, lo, hi);
  }

  /** Dividing `n * lo <= sum <= n * hi` by a positive `n`. */
  lemma QuotientBounds(sum: real, n: real, lo: real, hi: real)
    requires n > 0.0 && n * lo <= sum <= n * hi
    ensures lo <= sum / n <= hi
  {
    var q := sum / n;
    assert q * n == sum;
  }

  // ---------------------------------------------------------------------------
  // Household tariffs
  // ---------------------------------------------------------------------------

  /** get_household_price: the configured base price times the zone rate; `None` without a base price. */
  function GetHouseholdPrice(price: Option<real>, rate: Option<real>): (r: Option<real>)
    requires price.Some? ==> rate.Some?
    ensures r.Some? <==> price.Some?
    ensures r.Some? ==> r.value == price.value * rate.value
  {
    if price.Some? then Some(price.value * rate.value) else None
  }

  /** A non-negative base price, scaled by any zone's rate, stays between 0.4 and 1.5 times itself. */
  lemma HouseholdWithinTariffBand(price: real, meterZones: Option<string>, hour: Hour)
    requires price >= 0.0
    requires EffectiveZones(meterZones) in {"1", "2", "3"}
    ensures var r := GetHouseholdPrice(Some(price), GetCurrentZoneRate(meterZones, hour));
      r.Some? && 0.4 * price <= r.value <= 1.5 * price
  {
    var rate := GetCurrentZoneRate(meterZones, hour).value;
    assert 0.4 <= rate <= 1.5;
    assert price * rate >= price * 0.4;
    assert price * rate <= price * 1.5;
  }

  /**
   * get_household_selling_price: the household price net of 20% VAT, capped by
   * the current market price; `None` without a base price.
   */
  function GetHouseholdSellingPrice(price: Option<real>, rate: Option<real>, current: real): (r: Option<real>)
    requires price.Some? ==> rate.Some?
    ensures r.Some? <==> price.Some?
    ensures r.Some? ==> r.value <= current && r.value <= price.value * rate.value / 1.2
    ensures r.Some? ==> r.value == current || r.value == price.value * rate.value / 1.2
  {
    if price.Some? then
      var net := price.value * rate.value / 1.2;
      Some(if net <= current then net else current)
    else None
  }
}
